/**
 * The appraisal-intake dialog of app.js. The transition table is given as functions
 * (`TextStep`, `PostbackStep`, `EventStep`) over a session's state and answers; `Session`
 * is the per-user record whose methods update `state` and `answers` in place the way
 * `handleEvent` does, and `SessionStore` is the map from user id to session.
 * Outbound LINE messages are replaced by an abstract `Reply`.
 */
module App {
  import opened Wrappers
  import opened JsString
  import opened Validators
  import opened Intake
  import opened FlexConfirm

  /** What the bot sends back, instead of the LINE message objects. */
  datatype Reply =
    | Silent                       // no reply at all
    | Greeting                     // the follow greeting with its "start" button
    | Started                      // the opening message and the property-type question
    | Ask(next: State)             // the question of the step the dialog now waits in
    | Retry(at: State)             // a validator refused the input: the corrective re-prompt
    | Confirm(card: Answers)       // the confirmation card of these answers; its lines are `Render(card)`
    | Submitted(notified: Answers) // the request is accepted and `saveAndNotify` is asked to send these
    | Thanks                       // the reply to a thank-you phrase
    | Fault                        // a TypeError in the source: the event fails, nothing changes

  /** The effect of one event on one session. */
  datatype Outcome = Outcome(state: State, answers: Answers, reply: Reply)

  /** The kinds of event `handleEvent` distinguishes. */
  datatype EventKind =
    | Follow
    | Postback(data: Option<string>)
    | TextMessage(text: string)
    | OtherMessage   // a message that is not text
    | OtherEvent     // any other event type

  datatype Event = Event(userId: Option<string>, kind: EventKind)

  /** The edit-menu labels offered at app.js:121-122. */
  const EditLabels: seq<string> :=
    ["住所", "建物名", "部屋番号", "面積", "間取り", "築年", "現況",
     "所有者", "売却理由", "査定方法", "時期", "連絡方法", "氏名", "連絡先", "備考"]

  predicate IsRestart(t: string) {
    t in RestartWords
  }

  predicate IsThanks(t: string) {
    t in ThanksWords
  }

  /** The short code stored for an appraisal-method label (app.js:242). */
  function MethodCode(choice: string): (code: string)
    requires choice in MethodLabels
    ensures code in ["desk", "online", "visit"]
  {
    if choice == DeskLabel then "desk" else if choice == OnlineLabel then "online" else "visit"
  }

  /** The edit-menu jump table: the step a label jumps to, or None for any other text. */
  function EditTarget(a: Answers, t: string): Option<State> {
    if t == "住所" then Some(AskAddressPref)
    else if t == "建物名" then Some(AskAptName)
    else if t == "部屋番号" then Some(AskAptRoomNo)
    else if t == "面積" then Some(if a.propertyType == Some(House) then AskAreaLand else AskArea)
    else if t == "間取り" then Some(AskLayout)
    else if t == "築年" then Some(AskYearBuilt)
    else if t == "現況" then Some(AskStatus)
    else if t == "所有者" then Some(AskOwner)
    else if t == "売却理由" then Some(AskReason)
    else if t == "査定方法" then Some(AskMethod)
    else if t == "時期" then Some(AskTiming)
    else if t == "連絡方法" then Some(AskContactMethod)
    else if t == "氏名" then Some(AskName)
    else if t == "連絡先" then Some(if a.contactMethod == Some(PhoneContact) then AskPhone else AskEmail)
    else if t == "備考" then Some(AskNotes)
    else None
  }

  /** The step after the street: the building name for an apartment, the land area for a house. */
  function StreetNext(propertyType: Option<string>): State {
    if propertyType == Some(Apartment) then AskAptName
    else if propertyType == Some(House) then AskAreaLand
    else AskArea
  }

  /** The step after the layout: the building year for a house, the occupancy otherwise. */
  function LayoutNext(propertyType: Option<string>): State {
    if propertyType == Some(House) then AskYearBuilt else AskStatus
  }

  /** The step after the name: the phone number or the e-mail address, or the notes. */
  function NameNext(contactMethod: Option<string>): State {
    if contactMethod == Some(PhoneContact) then AskPhone
    else if contactMethod == Some(MailContact) then AskEmail
    else AskNotes
  }

  /** The area an accepted ASK_AREA input leaves: `{exclusive}`, `{land}`, or the old one. */
  function AreaAfter(propertyType: Option<string>, current: Option<Area>, t: string): Option<Area> {
    if propertyType == Some(Apartment) then Some(Area(Some(t), None, None))
    else if propertyType == Some(LandPlot) then Some(Area(None, Some(t), None))
    else current
  }

  /** `startFlow`: a fresh session waiting for the property type. */
  function Restarted(): Outcome {
    Outcome(AskType, NoAnswers, Started)
  }

  /** `showConfirm`: the card of the current answers, waiting for submit or edit. */
  function Confirmed(a: Answers): Outcome {
    Outcome(WaitConfirm, a, Confirm(a))
  }

  /** Move to `next` with answers `a` and ask its question. */
  function Advance(next: State, a: Answers): Outcome {
    Outcome(next, a, Ask(next))
  }

  /** A validator refused the input: same state, same answers, the corrective prompt. */
  function Reject(st: State, a: Answers): Outcome {
    Outcome(st, a, Retry(st))
  }

  /** No rule applies: nothing changes, and only a thank-you phrase is answered. */
  function Unmatched(st: State, a: Answers, t: string): Outcome {
    Outcome(st, a, if IsThanks(t) then Thanks else Silent)
  }

  /** The edit menu (app.js:138-155): jump to the chosen step, or back to the card. */
  function EditStep(a: Answers, t: string): Outcome {
    match EditTarget(a, t)
    case Some(next) => Advance(next, a)
    case None => Confirmed(a)
  }

  /** The property half of the per-state rules (app.js:157-230) for a trimmed, non-restart text `t`. */
  function PropertyRule(st: State, a: Answers, t: string): Outcome {
    match st
    case AskType =>
      if t in PropertyTypes then Advance(AskAddressPref, a.(propertyType := Some(t)))
      else Unmatched(st, a, t)
    case AskAddressPref =>
      Advance(AskAddressCity, a.(address := Some(Address(Some(t), None, None))))
    case AskAddressCity =>
      if a.address.None? then Outcome(st, a, Fault)
      else Advance(AskAddressStreet, a.(address := Some(a.address.value.(city := Some(t)))))
    case AskAddressStreet =>
      if a.address.None? then Outcome(st, a, Fault)
      else Advance(StreetNext(a.propertyType), a.(address := Some(a.address.value.(street := Some(t)))))
    case AskAptName =>
      var (name, room) := SplitAptName(t);
      if room.Some? then Advance(AskArea, a.(apartmentName := Some(name), roomNo := room))
      else Advance(AskAptRoomNo, a.(apartmentName := Some(name)))
    case AskAptRoomNo =>
      var room := RemoveSpaces(t);
      if IsRoom(room) then Advance(AskArea, a.(roomNo := Some(room))) else Reject(st, a)
    case AskArea =>
      if IsNum(t) then Advance(AskLayout, a.(area := AreaAfter(a.propertyType, a.area, t)))
      else Reject(st, a)
    case AskAreaLand =>
      if IsNum(t) then Advance(AskAreaBuilding, a.(area := Some(Area(None, Some(t), None))))
      else Reject(st, a)
    case AskAreaBuilding =>
      if !IsNum(t) then Reject(st, a)
      else if a.area.None? then Outcome(st, a, Fault)
      else Advance(AskLayout, a.(area := Some(a.area.value.(building := Some(t)))))
    case AskLayout =>
      if t in Layouts then Advance(LayoutNext(a.propertyType), a.(layout := Some(t)))
      else Unmatched(st, a, t)
    case AskYearBuilt =>
      if !IsYear(t) then Reject(st, a)
      else if StartsWithChiku(t) then Advance(AskStatus, a.(ageBuilt := Some(t)))
      else Advance(AskStatus, a.(yearBuilt := Some(t)))
    case AskStatus =>
      if t in Statuses then Advance(AskBreakCustomer, a.(occupancy := Some(t)))
      else Unmatched(st, a, t)
    case AskBreakCustomer =>
      if t == Continue then Advance(AskOwner, a) else Unmatched(st, a, t)
    case _ => Unmatched(st, a, t)
  }

  /** The customer half of the per-state rules (app.js:232-279); any other state has no rule. */
  function CustomerRule(st: State, a: Answers, t: string): Outcome {
    match st
    case AskOwner =>
      if t in Owners then Advance(AskReason, a.(ownerType := Some(t))) else Unmatched(st, a, t)
    case AskReason =>
      Advance(AskMethod, a.(saleReason := Some(t)))
    case AskMethod =>
      if t in MethodLabels then Advance(AskTiming, a.(appraisalMethod := Some(MethodCode(t))))
      else Unmatched(st, a, t)
    case AskTiming =>
      if t in Timings then Advance(AskContactMethod, a.(saleTiming := Some(t)))
      else Unmatched(st, a, t)
    case AskContactMethod =>
      if t in ContactMethods then Advance(AskName, a.(contactMethod := Some(t)))
      else Unmatched(st, a, t)
    case AskName =>
      Advance(NameNext(a.contactMethod), a.(name := Some(t)))
    case AskPhone =>
      if IsPhone(t) then Advance(AskNotes, a.(phone := Some(t))) else Reject(st, a)
    case AskEmail =>
      if IsMail(t) then Advance(AskNotes, a.(email := Some(t))) else Reject(st, a)
    case AskNotes =>
      Advance(AskPrivacy, if t != NoNotes then a.(notes := Some(t)) else a)
    case AskPrivacy =>
      if t == Agree then Confirmed(a.(privacyAgree := true)) else Unmatched(st, a, t)
    case _ => Unmatched(st, a, t)
  }

  /** The states whose rules are in the property half. */
  predicate IsPropertyState(st: State) {
    || st.AskType? || st.AskAddressPref? || st.AskAddressCity? || st.AskAddressStreet?
    || st.AskAptName? || st.AskAptRoomNo? || st.AskArea? || st.AskAreaLand? || st.AskAreaBuilding?
    || st.AskLayout? || st.AskYearBuilt? || st.AskStatus? || st.AskBreakCustomer?
  }

  /** The states of the sale rules of the customer half. */
  predicate IsSaleState(st: State) {
    st.AskOwner? || st.AskReason? || st.AskMethod? || st.AskTiming? || st.AskContactMethod?
  }

  /** The states of the contact rules of the customer half. */
  predicate IsContactState(st: State) {
    st.AskName? || st.AskPhone? || st.AskEmail? || st.AskNotes? || st.AskPrivacy?
  }

  /** The per-state rules of app.js:157-284 for a trimmed, non-restart text `t`. */
  function RuleStep(st: State, a: Answers, t: string): Outcome {
    if IsPropertyState(st) then PropertyRule(st, a, t) else CustomerRule(st, a, t)
  }

  /** When no rule of the state's half applies, the per-state rules leave the session alone. */
  lemma NoRuleApplies(st: State, a: Answers, t: string)
    requires IsPropertyState(st) ==> PropertyRule(st, a, t) == Unmatched(st, a, t)
    requires IsSaleState(st) || IsContactState(st) ==> CustomerRule(st, a, t) == Unmatched(st, a, t)
    ensures RuleStep(st, a, t) == Unmatched(st, a, t)
  {
  }

  /** A text message: trim, then restart, then the edit menu, then the per-state rules. */
  function TextStep(st: State, a: Answers, text: string): Outcome {
    var t := Trim(text);
    if IsRestart(t) then Restarted()
    else if st == EditMenu then EditStep(a, t)
    else RuleStep(st, a, t)
  }

  /** A postback: start from anywhere; submit and edit only while the card waits. */
  function PostbackStep(st: State, a: Answers, data: Option<string>): Outcome {
    var d := data.GetOr("");
    if d == StartAppraisal then Restarted()
    else if st == WaitConfirm && d == Submit then Outcome(Done, a, Submitted(a))
    else if st == WaitConfirm && d == Edit then Advance(EditMenu, a)
    else Outcome(st, a, Silent)
  }

  /** One event on one session. */
  function EventStep(st: State, a: Answers, kind: EventKind): Outcome {
    match kind
    case Follow => Outcome(st, a, Greeting)
    case Postback(data) => PostbackStep(st, a, data)
    case TextMessage(text) => TextStep(st, a, text)
    case OtherMessage => Outcome(st, a, Silent)
    case OtherEvent => Outcome(st, a, Silent)
  }

  /**
   * The facts every session keeps between events: a session waiting for its first answer
   * holds none, the address exists while its city and street are asked, the land and building
   * areas are asked only for a house, and the area has the shape its property type prescribes.
   */
  ghost predicate Inv(st: State, a: Answers) {
    && (st == Init || st == AskType ==> a == NoAnswers)
    && (st == AskAddressCity || st == AskAddressStreet ==> a.address.Some?)
    && (st == AskAreaLand || st == AskAreaBuilding ==> a.propertyType == Some(House))
    && (st == AskAreaBuilding ==> a.area.Some?)
    && AreaFitsType(a)
  }

  /** `{exclusive}` for an apartment, `{land, building}` for a house, `{land}` for land, none otherwise. */
  ghost predicate AreaFitsType(a: Answers) {
    a.area.Some? ==>
      var ar := a.area.value;
      if a.propertyType == Some(Apartment) then ar.land.None? && ar.building.None?
      else if a.propertyType == Some(House) then ar.exclusive.None?
      else if a.propertyType == Some(LandPlot) then ar.exclusive.None? && ar.building.None?
      else false
  }

  /** Each per-state rule keeps the invariant and, under it, never hits a TypeError. */
  lemma RuleKeepsInv(st: State, a: Answers, t: string)
    requires Inv(st, a)
    ensures var o := RuleStep(st, a, t); Inv(o.state, o.answers) && o.reply != Fault
  {
    if IsPropertyState(st) {
      PropertyRuleKeepsInv(st, a, t);
    } else {
      CustomerRuleKeepsInv(st, a, t);
    }
  }

  /** The property half keeps the invariant: the address and area sub-sequences find what they update. */
  lemma PropertyRuleKeepsInv(st: State, a: Answers, t: string)
    requires Inv(st, a)
    ensures var o := PropertyRule(st, a, t); Inv(o.state, o.answers) && o.reply != Fault
  {
    if st in {AskType, AskAddressPref, AskAddressCity, AskAddressStreet, AskAptName, AskAptRoomNo} {
      AddressRulesKeepInv(st, a, t);
    } else {
      AreaRulesKeepInv(st, a, t);
    }
  }

  /** The type, address and building rules keep the invariant. */
  lemma AddressRulesKeepInv(st: State, a: Answers, t: string)
    requires Inv(st, a)
    requires st in {AskType, AskAddressPref, AskAddressCity, AskAddressStreet, AskAptName, AskAptRoomNo}
    ensures var o := PropertyRule(st, a, t); Inv(o.state, o.answers) && o.reply != Fault
  {
  }

  /** The area, layout, year, status and break rules keep the invariant. */
  lemma AreaRulesKeepInv(st: State, a: Answers, t: string)
    requires Inv(st, a)
    requires st !in {AskType, AskAddressPref, AskAddressCity, AskAddressStreet, AskAptName, AskAptRoomNo}
    ensures var o := PropertyRule(st, a, t); Inv(o.state, o.answers) && o.reply != Fault
  {
    if st == AskArea {
      assert a.propertyType == Some(House) ==> AreaAfter(a.propertyType, a.area, t) == a.area;
    }
  }

  /** The customer half keeps the invariant: it never touches the property fields. */
  lemma CustomerRuleKeepsInv(st: State, a: Answers, t: string)
    requires Inv(st, a)
    ensures var o := CustomerRule(st, a, t); Inv(o.state, o.answers) && o.reply != Fault
  {
    if IsSaleState(st) {
      SaleRulesKeepInv(st, a, t);
    } else {
      ContactRulesKeepInv(st, a, t);
    }
  }

  /** The sale rules keep the invariant. */
  lemma SaleRulesKeepInv(st: State, a: Answers, t: string)
    requires Inv(st, a) && IsSaleState(st)
    ensures var o := CustomerRule(st, a, t); Inv(o.state, o.answers) && o.reply != Fault
  {
  }

  /** The contact rules, and the states without a rule, keep the invariant. */
  lemma ContactRulesKeepInv(st: State, a: Answers, t: string)
    requires Inv(st, a) && !IsSaleState(st)
    ensures var o := CustomerRule(st, a, t); Inv(o.state, o.answers) && o.reply != Fault
  {
  }

  /** The edit menu keeps the invariant: it leaves the answers alone and jumps to land area only for a house. */
  lemma EditKeepsInv(a: Answers, t: string)
    requires Inv(EditMenu, a)
    ensures var o := EditStep(a, t); Inv(o.state, o.answers) && o.reply != Fault
  {
    EditTargetRange(a, t);
  }

  /** The jump table never lands inside the address or area sub-sequences, and land area only for a house. */
  lemma EditTargetRange(a: Answers, t: string)
    ensures EditTarget(a, t).Some? ==>
      var next := EditTarget(a, t).value;
      && next !in {Init, AskType, AskAddressCity, AskAddressStreet, AskAreaBuilding}
      && (next == AskAreaLand ==> a.propertyType == Some(House))
  {
  }

  /** Every text message keeps the invariant. */
  lemma TextKeepsInv(st: State, a: Answers, text: string)
    requires Inv(st, a)
    ensures var o := TextStep(st, a, text); Inv(o.state, o.answers) && o.reply != Fault
  {
    var t := Trim(text);
    if IsRestart(t) {
    } else if st == EditMenu {
      EditKeepsInv(a, t);
    } else {
      RuleKeepsInv(st, a, t);
    }
  }

  /** Every event keeps the invariant, and under it the source's TypeError paths are never taken. */
  lemma EventKeepsInv(st: State, a: Answers, kind: EventKind)
    requires Inv(st, a)
    ensures var o := EventStep(st, a, kind); Inv(o.state, o.answers) && o.reply != Fault
  {
    match kind
    case TextMessage(text) => TextKeepsInv(st, a, text);
    case Postback(data) =>
    case Follow =>
    case OtherMessage =>
    case OtherEvent =>
  }

  /** The per-user session record `{state, answers}`. */
  class Session {
    var state: State
    var answers: Answers

    /** `{ state: "INIT", answers: {} }`. */
    constructor ()
      ensures state == Init && answers == NoAnswers
    {
      state := Init;
      answers := NoAnswers;
    }

    /** `startFlow`: back to the property-type question with empty answers. */
    method StartFlow() returns (r: Reply)
      modifies this
      ensures Outcome(state, answers, r) == Restarted()
    {
      state := AskType;
      answers := NoAnswers;
      r := Started;
    }

    /** `showConfirm`: wait for submit or edit and show the card of the answers. */
    method ShowConfirm() returns (r: Reply)
      modifies this
      ensures Outcome(state, answers, r) == Confirmed(old(answers))
    {
      state := WaitConfirm;
      r := Confirm(answers);
    }

    /** `onFollow`: greet; the session is left as it is. */
    method HandleFollow() returns (r: Reply)
      ensures Outcome(state, answers, r) == EventStep(state, answers, Follow)
    {
      r := Greeting;
    }

    /** The postback branch of `handleEvent` (app.js:106-126). */
    method HandlePostback(data: Option<string>) returns (r: Reply)
      modifies this
      ensures Outcome(state, answers, r) == PostbackStep(old(state), old(answers), data)
    {
      var d := data.GetOr("");
      if d == StartAppraisal {
        r := StartFlow();
        return;
      }
      if state == WaitConfirm && d == Submit {
        r := Submitted(answers);
        state := Done;
        return;
      }
      if state == WaitConfirm && d == Edit {
        state := EditMenu;
        return Ask(EditMenu);
      }
      return Silent;
    }

    /** The edit-menu branch of `handleEvent` (app.js:138-155): only `state` is written. */
    method HandleEditMenu(t: string) returns (r: Reply)
      requires state == EditMenu
      modifies this
      ensures Outcome(state, answers, r) == EditStep(old(answers), t)
    {
      if t == "住所" { state := AskAddressPref; return Ask(state); }
      if t == "建物名" { state := AskAptName; return Ask(state); }
      if t == "部屋番号" { state := AskAptRoomNo; return Ask(state); }
      if t == "面積" {
        state := if answers.propertyType == Some(House) then AskAreaLand else AskArea;
        return Ask(state);
      }
      if t == "間取り" { state := AskLayout; return Ask(state); }
      if t == "築年" { state := AskYearBuilt; return Ask(state); }
      if t == "現況" { state := AskStatus; return Ask(state); }
      if t == "所有者" { state := AskOwner; return Ask(state); }
      if t == "売却理由" { state := AskReason; return Ask(state); }
      if t == "査定方法" { state := AskMethod; return Ask(state); }
      if t == "時期" { state := AskTiming; return Ask(state); }
      if t == "連絡方法" { state := AskContactMethod; return Ask(state); }
      if t == "氏名" { state := AskName; return Ask(state); }
      if t == "連絡先" {
        state := if answers.contactMethod == Some(PhoneContact) then AskPhone else AskEmail;
        return Ask(state);
      }
      if t == "備考" { state := AskNotes; return Ask(state); }
      state := WaitConfirm;
      r := ShowConfirm();
    }

    /** The property half of the per-state rules (app.js:157-230). */
    method HandlePropertyAnswer(t: string) returns (r: Reply, matched: bool)
      modifies this
      ensures matched ==> Outcome(state, answers, r) == PropertyRule(old(state), old(answers), t)
      ensures !matched ==> state == old(state) && answers == old(answers)
      ensures !matched ==> PropertyRule(old(state), old(answers), t) == Unmatched(old(state), old(answers), t)
      ensures !IsPropertyState(old(state)) ==> !matched
    {
      matched := true;
      if state == AskType && t in PropertyTypes {
        answers := answers.(propertyType := Some(t));
        state := AskAddressPref;
        return Ask(state), true;
      }
      if state == AskAddressPref {
        answers := answers.(address := Some(Address(Some(t), None, None)));
        state := AskAddressCity;
        return Ask(state), true;
      }
      if state == AskAddressCity {
        if answers.address.None? { return Fault, true; }
        answers := answers.(address := Some(answers.address.value.(city := Some(t))));
        state := AskAddressStreet;
        return Ask(state), true;
      }
      if state == AskAddressStreet {
        if answers.address.None? { return Fault, true; }
        answers := answers.(address := Some(answers.address.value.(street := Some(t))));
        if answers.propertyType == Some(Apartment) {
          state := AskAptName;
          return Ask(state), true;
        }
        state := if answers.propertyType == Some(House) then AskAreaLand else AskArea;
        return Ask(state), true;
      }
      if state == AskAptName {
        var (name, room) := SplitAptName(t);
        answers := answers.(apartmentName := Some(name));
        if room.Some? {
          answers := answers.(roomNo := room);
          state := AskArea;
          return Ask(state), true;
        }
        state := AskAptRoomNo;
        return Ask(state), true;
      }
      if state == AskAptRoomNo {
        var room := RemoveSpaces(t);
        if !IsRoom(room) { return Retry(state), true; }
        answers := answers.(roomNo := Some(room));
        state := AskArea;
        return Ask(state), true;
      }
      if state == AskArea {
        if !IsNum(t) { return Retry(state), true; }
        if answers.propertyType == Some(Apartment) { answers := answers.(area := Some(Area(Some(t), None, None))); }
        if answers.propertyType == Some(LandPlot) { answers := answers.(area := Some(Area(None, Some(t), None))); }
        state := AskLayout;
        return Ask(state), true;
      }
      if state == AskAreaLand {
        if !IsNum(t) { return Retry(state), true; }
        answers := answers.(area := Some(Area(None, Some(t), None)));
        state := AskAreaBuilding;
        return Ask(state), true;
      }
      if state == AskAreaBuilding {
        if !IsNum(t) { return Retry(state), true; }
        if answers.area.None? { return Fault, true; }
        answers := answers.(area := Some(answers.area.value.(building := Some(t))));
        state := AskLayout;
        return Ask(state), true;
      }
      if state == AskLayout && t in Layouts {
        answers := answers.(layout := Some(t));
        if answers.propertyType == Some(House) {
          state := AskYearBuilt;
          return Ask(state), true;
        }
        state := AskStatus;
        return Ask(state), true;
      }
      if state == AskYearBuilt {
        if !IsYear(t) { return Retry(state), true; }
        if StartsWithChiku(t) {
          answers := answers.(ageBuilt := Some(t));
        } else {
          answers := answers.(yearBuilt := Some(t));
        }
        state := AskStatus;
        return Ask(state), true;
      }
      if state == AskStatus && t in Statuses {
        answers := answers.(occupancy := Some(t));
        state := AskBreakCustomer;
        return Ask(state), true;
      }
      if state == AskBreakCustomer && t == Continue {
        state := AskOwner;
        return Ask(state), true;
      }
      return Silent, false;
    }

    /** The sale rules of the customer half (app.js:232-254): owner, reason, method, timing, contact method. */
    method HandleSaleAnswer(t: string) returns (r: Reply, matched: bool)
      modifies this
      ensures matched ==> Outcome(state, answers, r) == CustomerRule(old(state), old(answers), t)
      ensures !matched ==> state == old(state) && answers == old(answers)
      ensures !matched && IsSaleState(old(state)) ==>
        CustomerRule(old(state), old(answers), t) == Unmatched(old(state), old(answers), t)
      ensures !IsSaleState(old(state)) ==> !matched
    {
      if state == AskOwner && t in Owners {
        answers := answers.(ownerType := Some(t));
        state := AskReason;
        return Ask(state), true;
      }
      if state == AskReason {
        answers := answers.(saleReason := Some(t));
        state := AskMethod;
        return Ask(state), true;
      }
      if state == AskMethod && t in MethodLabels {
        answers := answers.(appraisalMethod := Some(MethodCode(t)));
        state := AskTiming;
        return Ask(state), true;
      }
      if state == AskTiming && t in Timings {
        answers := answers.(saleTiming := Some(t));
        state := AskContactMethod;
        return Ask(state), true;
      }
      if state == AskContactMethod && t in ContactMethods {
        answers := answers.(contactMethod := Some(t));
        state := AskName;
        return Ask(state), true;
      }
      return Silent, false;
    }

    /** The contact rules of the customer half (app.js:255-279): name, phone, e-mail, notes, consent. */
    method HandleContactAnswer(t: string) returns (r: Reply, matched: bool)
      modifies this
      ensures matched ==> Outcome(state, answers, r) == CustomerRule(old(state), old(answers), t)
      ensures !matched ==> state == old(state) && answers == old(answers)
      ensures !matched && IsContactState(old(state)) ==>
        CustomerRule(old(state), old(answers), t) == Unmatched(old(state), old(answers), t)
      ensures !IsContactState(old(state)) ==> !matched
    {
      if state == AskName {
        answers := answers.(name := Some(t));
        if answers.contactMethod == Some(PhoneContact) {
          state := AskPhone;
          return Ask(state), true;
        }
        if answers.contactMethod == Some(MailContact) {
          state := AskEmail;
          return Ask(state), true;
        }
        state := AskNotes;
        return Ask(state), true;
      }
      if state == AskPhone {
        if !IsPhone(t) { return Retry(state), true; }
        answers := answers.(phone := Some(t));
        state := AskNotes;
        return Ask(state), true;
      }
      if state == AskEmail {
        if !IsMail(t) { return Retry(state), true; }
        answers := answers.(email := Some(t));
        state := AskNotes;
        return Ask(state), true;
      }
      if state == AskNotes {
        if t != NoNotes { answers := answers.(notes := Some(t)); }
        state := AskPrivacy;
        return Ask(state), true;
      }
      if state == AskPrivacy && t == Agree {
        answers := answers.(privacyAgree := true);
        r := ShowConfirm();
        return r, true;
      }
      return Silent, false;
    }

    /** The text-message branch of `handleEvent` (app.js:129-285). */
    method HandleText(text: string) returns (r: Reply)
      modifies this
      ensures Outcome(state, answers, r) == TextStep(old(state), old(answers), text)
    {
      var t := Trim(text);
      if IsRestart(t) {
        r := StartFlow();
        return;
      }
      if state == EditMenu {
        r := HandleEditMenu(t);
        return;
      }
      var matched;
      r, matched := HandlePropertyAnswer(t);
      if matched { return; }
      r, matched := HandleSaleAnswer(t);
      if matched { return; }
      r, matched := HandleContactAnswer(t);
      if matched { return; }
      NoRuleApplies(state, answers, t);
      if IsThanks(t) { return Thanks; }
      return Silent;
    }

    /** One event on this session: follow, postback, text, or anything else (ignored). */
    method Handle(kind: EventKind) returns (r: Reply)
      modifies this
      ensures Outcome(state, answers, r) == EventStep(old(state), old(answers), kind)
    {
      match kind
      case Follow =>
        r := HandleFollow();
      case Postback(data) =>
        r := HandlePostback(data);
      case TextMessage(text) =>
        r := HandleText(text);
      case OtherMessage =>
        r := Silent;
      case OtherEvent =>
        r := Silent;
    }
  }

  /** The session map `SESS`: one session object per user id. */
  class SessionStore {
    var sessions: map<string, Session>

    /** Distinct users have distinct session objects, and every session keeps `Inv`. */
    ghost predicate Valid()
      reads this, sessions.Values
    {
      && (forall u, v | u in sessions && v in sessions && u != v :: sessions[u] != sessions[v])
      && (forall u | u in sessions :: Inv(sessions[u].state, sessions[u].answers))
    }

    /** What `handleEvent` finds for user `u`: the stored session, or a fresh `{INIT, {}}`. */
    ghost function Lookup(u: string): (State, Answers)
      reads this, sessions.Values
    {
      if u in sessions then (sessions[u].state, sessions[u].answers) else (Init, NoAnswers)
    }

    constructor ()
      ensures Valid() && sessions == map[]
    {
      sessions := map[];
    }

    /** `SESS.get(userId) || { state: "INIT", answers: {} }`, stored back into the map. */
    method SessionFor(u: string) returns (s: Session)
      requires Valid()
      modifies this
      ensures Valid() && sessions == old(sessions)[u := s]
      ensures u in old(sessions) ==> s == old(sessions[u])
      ensures u !in old(sessions) ==> fresh(s)
      ensures (s.state, s.answers) == old(Lookup(u))
    {
      if u in sessions {
        s := sessions[u];
      } else {
        s := new Session();
        sessions := sessions[u := s];
      }
    }

    /**
     * `handleEvent` (app.js:94-286): an event without a user id is ignored; otherwise the
     * user's session is fetched or created and the event is applied to it alone.
     */
    method HandleEvent(ev: Event) returns (r: Reply)
      requires Valid()
      modifies this, sessions.Values
      ensures Valid()
      ensures r != Fault
      ensures !Truthy(ev.userId) ==> r == Silent && sessions == old(sessions)
      ensures !Truthy(ev.userId) ==> forall u | u in sessions :: Lookup(u) == old(Lookup(u))
      ensures Truthy(ev.userId) ==>
        var u := ev.userId.value;
        && sessions.Keys == old(sessions.Keys) + {u}
        && (u in old(sessions) ==> sessions[u] == old(sessions[u]))
        && (u !in old(sessions) ==> fresh(sessions[u]))
        && (var (st, a) := old(Lookup(u));
            Outcome(sessions[u].state, sessions[u].answers, r) == EventStep(st, a, ev.kind))
        && (forall v | v in old(sessions) && v != u :: sessions[v] == old(sessions[v]) && unchanged(sessions[v]))
    {
      if !Truthy(ev.userId) {
        return Silent;
      }
      var u := ev.userId.value;
      var s := SessionFor(u);
      ghost var st, a := s.state, s.answers;
      ghost var mid := sessions;
      assert forall v | v in mid && v != u :: mid[v] != s;
      r := s.Handle(ev.kind);
      EventKeepsInv(st, a, ev.kind);
    }
  }
}
