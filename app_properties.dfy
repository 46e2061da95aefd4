/**
 * Properties of the intake dialog, stated on the transition functions of `App` (which the
 * `Session` methods are proved to follow): restart precedence, trimming, validators and the
 * state they leave alone, routing, the shape of the stored area, the building-name split,
 * the built year or age, the postbacks and the edit menu, and what unmatched input does.
 * Most dialog-level facts are put together from facts about one half of the per-state rules
 * (`PropertyRule`, `CustomerRule`) or about the edit menu.
 */
module AppProperties {
  import opened Wrappers
  import opened JsString
  import opened Validators
  import opened Intake
  import opened FlexConfirm
  import opened App
  import opened FlexConfirmProperties

  // ---- restart -------------------------------------------------------------------------

  /** A restart word, once trimmed, resets every session, before the edit menu and the per-state rules. */
  lemma RestartFromEveryState(st: State, a: Answers, text: string)
    requires IsRestart(Trim(text))
    ensures TextStep(st, a, text) == Outcome(AskType, NoAnswers, Started)
  {
  }

  /** The START_APPRAISAL postback resets every session too. */
  lemma StartPostbackFromEveryState(st: State, a: Answers)
    ensures PostbackStep(st, a, Some(StartAppraisal)) == Outcome(AskType, NoAnswers, Started)
  {
  }

  /** Surrounding white space never changes what a text does. */
  lemma TextIsTrimmedFirst(st: State, a: Answers, text: string)
    ensures TextStep(st, a, text) == TextStep(st, a, Trim(text))
  {
    TrimIdempotent(text);
  }

  /** A text that is already trimmed and no restart word goes to the edit menu or the per-state rules. */
  lemma TextStepOfTrimmed(st: State, a: Answers, t: string)
    requires IsTrimmed(t) && !IsRestart(t)
    ensures TextStep(st, a, t) == if st == EditMenu then EditStep(a, t) else RuleStep(st, a, t)
  {
    TrimOfTrimmed(t);
  }

  /** A trimmed, non-restart text in a state of the property half goes to `PropertyRule`. */
  lemma PropertyTextStep(st: State, a: Answers, t: string)
    requires IsTrimmed(t) && !IsRestart(t) && IsPropertyState(st)
    ensures TextStep(st, a, t) == PropertyRule(st, a, t)
  {
    TrimOfTrimmed(t);
    assert RuleStep(st, a, t) == PropertyRule(st, a, t);
  }

  /** A trimmed, non-restart text in a state of the customer half goes to `CustomerRule`. */
  lemma CustomerTextStep(st: State, a: Answers, t: string)
    requires IsTrimmed(t) && !IsRestart(t) && !IsPropertyState(st) && st != EditMenu
    ensures TextStep(st, a, t) == CustomerRule(st, a, t)
  {
    TrimOfTrimmed(t);
    assert RuleStep(st, a, t) == CustomerRule(st, a, t);
  }

  /** A trimmed, non-restart text in the edit menu goes to the jump table. */
  lemma EditTextStep(a: Answers, t: string)
    requires IsTrimmed(t) && !IsRestart(t)
    ensures TextStep(EditMenu, a, t) == EditStep(a, t)
  {
    TextStepOfTrimmed(EditMenu, a, t);
  }

  /** A text holding a character below U+0080 is no restart word. */
  lemma AsciiIsNotRestart(t: string, i: nat)
    requires i < |t| && (t[i] as int) < 0x80
    ensures !IsRestart(t)
  {
  }

  /** The layouts are trimmed and none of them is a restart word. */
  lemma LayoutIsPlain(t: string)
    requires t in Layouts
    ensures IsTrimmed(t) && !IsRestart(t)
  {
  }

  /** The appraisal-method labels are trimmed and none of them is a restart word. */
  lemma MethodLabelIsPlain(t: string)
    requires t in MethodLabels
    ensures IsTrimmed(t) && !IsRestart(t)
  {
  }

  /** The contact methods are trimmed and none of them is a restart word. */
  lemma ContactMethodIsPlain(t: string)
    requires t in ContactMethods
    ensures IsTrimmed(t) && !IsRestart(t)
  {
  }

  // ---- validators and rejection -----------------------------------------------------------

  /** The states whose input goes through a validator. */
  predicate Validated(st: State) {
    st in {AskAptRoomNo, AskArea, AskAreaLand, AskAreaBuilding, AskYearBuilt, AskPhone, AskEmail}
  }

  /** The validator of each validated state, applied to the trimmed text. */
  predicate Accepts(st: State, t: string)
    requires Validated(st)
  {
    match st
    case AskAptRoomNo => IsRoom(RemoveSpaces(t))
    case AskArea => IsNum(t)
    case AskAreaLand => IsNum(t)
    case AskAreaBuilding => IsNum(t)
    case AskYearBuilt => IsYear(t)
    case AskPhone => IsPhone(t)
    case AskEmail => IsMail(t)
  }

  /**
   * A re-prompt happens exactly when a validated state's validator refuses the trimmed,
   * non-restart text, and it leaves the state and the answers as they were.
   */
  lemma RetryIffRejected(st: State, a: Answers, text: string)
    ensures var t := Trim(text); var o := TextStep(st, a, text);
      o.reply.Retry? <==> !IsRestart(t) && Validated(st) && !Accepts(st, t)
    ensures var o := TextStep(st, a, text);
      o.reply.Retry? ==> o == Outcome(st, a, Retry(st))
  {
    var t := Trim(text);
    if !IsRestart(t) {
      if st == EditMenu {
        EditStepOnlyMoves(a, t);
      } else if IsPropertyState(st) {
        PropertyRetry(st, a, t);
      } else {
        CustomerRetry(st, a, t);
      }
    }
  }

  /** In the property half a re-prompt is exactly a refusal by the state's validator. */
  lemma PropertyRetry(st: State, a: Answers, t: string)
    requires IsPropertyState(st)
    ensures var o := PropertyRule(st, a, t);
      && (o.reply.Retry? <==> Validated(st) && !Accepts(st, t))
      && (o.reply.Retry? ==> o == Outcome(st, a, Retry(st)))
  {
  }

  /** In the customer half a re-prompt is exactly a refusal of the phone number or e-mail address. */
  lemma CustomerRetry(st: State, a: Answers, t: string)
    requires !IsPropertyState(st)
    ensures var o := CustomerRule(st, a, t);
      && (o.reply.Retry? <==> Validated(st) && !Accepts(st, t))
      && (o.reply.Retry? ==> o == Outcome(st, a, Retry(st)))
  {
  }

  /** An accepted input in a validated state moves on; under the invariant it never faults or re-prompts. */
  lemma AcceptedInputMovesOn(st: State, a: Answers, text: string)
    requires Inv(st, a) && Validated(st)
    requires var t := Trim(text); !IsRestart(t) && Accepts(st, t)
    ensures var o := TextStep(st, a, text); o.state != st && o.reply == Ask(o.state)
  {
    var t := Trim(text);
    if IsPropertyState(st) {
      PropertyAccepted(st, a, t);
    } else {
      CustomerAccepted(st, a, t);
    }
  }

  /** An input a property-half validator accepts moves on to the next question. */
  lemma PropertyAccepted(st: State, a: Answers, t: string)
    requires Inv(st, a) && Validated(st) && IsPropertyState(st) && Accepts(st, t)
    ensures var o := PropertyRule(st, a, t); o.state != st && o.reply == Ask(o.state)
  {
  }

  /** An accepted phone number or e-mail address moves on to the notes. */
  lemma CustomerAccepted(st: State, a: Answers, t: string)
    requires Validated(st) && !IsPropertyState(st) && Accepts(st, t)
    ensures var o := CustomerRule(st, a, t); o.state != st && o.reply == Ask(o.state)
  {
  }

  // ---- routing ---------------------------------------------------------------------------

  /**
   * The address is asked as prefecture, city, street; the street is followed by the building
   * name for an apartment, the land area for a house and the area otherwise. The city and the
   * street are written into the address the prefecture step created; without one they fail.
   */
  lemma AddressSteps(a: Answers, t: string)
    requires t == Trim(t) && !IsRestart(t)
    ensures TextStep(AskAddressPref, a, t) ==
      Advance(AskAddressCity, a.(address := Some(Address(Some(t), None, None))))
    ensures a.address.Some? ==>
      TextStep(AskAddressCity, a, t) ==
        Advance(AskAddressStreet, a.(address := Some(a.address.value.(city := Some(t)))))
    ensures a.address.Some? ==> var o := TextStep(AskAddressStreet, a, t);
      && o.answers == a.(address := Some(a.address.value.(street := Some(t))))
      && (a.propertyType == Some(Apartment) ==> o.state == AskAptName)
      && (a.propertyType == Some(House) ==> o.state == AskAreaLand)
      && (a.propertyType != Some(Apartment) && a.propertyType != Some(House) ==> o.state == AskArea)
    ensures a.address.None? ==>
      TextStep(AskAddressCity, a, t).reply == Fault && TextStep(AskAddressStreet, a, t).reply == Fault
  {
    PropertyTextStep(AskAddressPref, a, t);
    PropertyTextStep(AskAddressCity, a, t);
    PropertyTextStep(AskAddressStreet, a, t);
  }

  /** After the layout a house is asked its building year and anything else its occupancy. */
  lemma LayoutRouting(a: Answers, t: string)
    requires t in Layouts
    ensures var o := TextStep(AskLayout, a, t);
      && o.answers == a.(layout := Some(t))
      && (o.state == AskYearBuilt <==> a.propertyType == Some(House))
      && (o.state != AskYearBuilt ==> o.state == AskStatus)
  {
    LayoutRule(a, t);
    LayoutIsPlain(t);
    PropertyTextStep(AskLayout, a, t);
  }

  /** A listed layout is stored and the step after it depends on the property type alone. */
  lemma LayoutRule(a: Answers, t: string)
    requires t in Layouts
    ensures PropertyRule(AskLayout, a, t) == Advance(LayoutNext(a.propertyType), a.(layout := Some(t)))
  {
  }

  /** After the name comes the phone for 電話, the e-mail for メール and the notes otherwise. */
  lemma NameRouting(a: Answers, t: string)
    requires t == Trim(t) && !IsRestart(t)
    ensures var o := TextStep(AskName, a, t);
      && o.answers == a.(name := Some(t))
      && (o.state == AskPhone <==> a.contactMethod == Some(PhoneContact))
      && (o.state == AskEmail <==> a.contactMethod == Some(MailContact))
      && (o.state == AskNotes <==> a.contactMethod != Some(PhoneContact) && a.contactMethod != Some(MailContact))
  {
    CustomerTextStep(AskName, a, t);
  }

  // ---- area shape ------------------------------------------------------------------------

  /**
   * An accepted area is stored as `{exclusive}` for an apartment and `{land}` for land, the
   * area is left alone for any other type, and the layout is asked next.
   */
  lemma AreaShape(a: Answers, t: string)
    requires t == Trim(t) && IsNum(t)
    ensures var o := TextStep(AskArea, a, t);
      && o.state == AskLayout
      && o.answers == a.(area := o.answers.area)
      && (a.propertyType == Some(Apartment) ==> o.answers.area == Some(Area(Some(t), None, None)))
      && (a.propertyType == Some(LandPlot) ==> o.answers.area == Some(Area(None, Some(t), None)))
      && (a.propertyType != Some(Apartment) && a.propertyType != Some(LandPlot) ==> o.answers.area == a.area)
  {
    NumIsNotRestart(t);
    PropertyTextStep(AskArea, a, t);
  }

  /** For a house the land area replaces the area with `{land}` and the building area is then added to it. */
  lemma HouseAreaShape(a: Answers, land: string, building: string)
    requires land == Trim(land) && IsNum(land) && building == Trim(building) && IsNum(building)
    ensures var o1 := TextStep(AskAreaLand, a, land);
      && o1 == Advance(AskAreaBuilding, a.(area := Some(Area(None, Some(land), None))))
      && TextStep(AskAreaBuilding, o1.answers, building) ==
           Advance(AskLayout, a.(area := Some(Area(None, Some(land), Some(building)))))
  {
    NumIsNotRestart(land);
    NumIsNotRestart(building);
    PropertyTextStep(AskAreaLand, a, land);
    PropertyTextStep(AskAreaBuilding, a.(area := Some(Area(None, Some(land), None))), building);
  }

  /** A number is never a restart word. */
  lemma NumIsNotRestart(t: string)
    requires IsNum(t)
    ensures !IsRestart(t)
  {
    assert IsDigit(t[0]);
    AsciiIsNotRestart(t, 0);
  }

  // ---- building name ---------------------------------------------------------------------

  /**
   * The building-name step always stores a name. When a room token ends the line, the name is
   * a prefix before it, only white space lies between them, the room is stored and the area is
   * asked; otherwise the whole line is the name, the room number is left alone and it is asked
   * next.
   */
  lemma AptNameStep(a: Answers, t: string)
    requires IsTrimmed(t) && !IsRestart(t)
    ensures var (name, room) := SplitAptName(t);
      && (room.None? ==> TextStep(AskAptName, a, t) == Advance(AskAptRoomNo, a.(apartmentName := Some(t))))
      && (room.Some? ==>
            && TextStep(AskAptName, a, t) == Advance(AskArea, a.(apartmentName := Some(name), roomNo := room))
            && IsRoom(room.value) && name != [] && |name| + |room.value| <= |t|
            && t[..|name|] == name && TrimStart(t[|name|..]) == room.value
            && t[|t| - |room.value|..] == room.value)
  {
    PropertyTextStep(AskAptName, a, t);
    AptNameRule(a, t);
    SplitAptNameShape(t);
  }

  /** The building-name rule stores the name of the split and, when there is one, the room. */
  lemma AptNameRule(a: Answers, t: string)
    ensures var (name, room) := SplitAptName(t);
      PropertyRule(AskAptName, a, t) ==
        if room.Some? then Advance(AskArea, a.(apartmentName := Some(name), roomNo := room))
        else Advance(AskAptRoomNo, a.(apartmentName := Some(name)))
  {
  }

  /** What the room-number step accepts, it stores with every white space removed. */
  lemma RoomStep(a: Answers, text: string)
    requires var t := Trim(text); !IsRestart(t) && IsRoom(RemoveSpaces(t))
    ensures TextStep(AskAptRoomNo, a, text) ==
      Advance(AskArea, a.(roomNo := Some(RemoveSpaces(Trim(text)))))
  {
  }

  // ---- built year or age -----------------------------------------------------------------

  /**
   * An accepted building year goes to `age_built` when it is the `築n年` form and to
   * `year_built` otherwise: never to both, and the other field is not cleared.
   */
  lemma YearOrAge(a: Answers, t: string)
    requires t == Trim(t) && IsYear(t) && !IsRestart(t)
    ensures var o := TextStep(AskYearBuilt, a, t);
      && o.state == AskStatus
      && (IsBuildingAge(t) ==> o.answers == a.(ageBuilt := Some(t)))
      && (IsCalendarYear(t) ==> o.answers == a.(yearBuilt := Some(t)))
  {
    YearFormsExclusive(t);
    PropertyTextStep(AskYearBuilt, a, t);
  }

  // ---- postbacks and the edit menu -------------------------------------------------------

  /** SUBMIT acts only on the card: it closes the session and hands the answers on unchanged. */
  lemma SubmitOnlyWhileConfirming(st: State, a: Answers)
    ensures PostbackStep(st, a, Some(Submit)) ==
      if st == WaitConfirm then Outcome(Done, a, Submitted(a)) else Outcome(st, a, Silent)
  {
  }

  /** EDIT acts only on the card: it opens the edit menu and keeps the answers. */
  lemma EditOnlyWhileConfirming(st: State, a: Answers)
    ensures PostbackStep(st, a, Some(Edit)) ==
      if st == WaitConfirm then Outcome(EditMenu, a, Ask(EditMenu)) else Outcome(st, a, Silent)
  {
  }

  /** Any other postback, an absent payload included, and a follow leave the session as it is. */
  lemma OtherPostbacksChangeNothing(st: State, a: Answers, data: Option<string>)
    requires data.GetOr("") !in {StartAppraisal, Submit, Edit}
    ensures PostbackStep(st, a, data) == Outcome(st, a, Silent)
    ensures EventStep(st, a, Follow) == Outcome(st, a, Greeting)
  {
  }

  /**
   * In the edit menu a non-restart text never touches the answers: each of the 15 labels
   * jumps into the dialog and any other text goes back to the card.
   */
  lemma EditMenuOnlyMoves(a: Answers, text: string)
    requires !IsRestart(Trim(text))
    ensures var t := Trim(text); var o := TextStep(EditMenu, a, text);
      && o.answers == a
      && (t in EditLabels <==> o.state != WaitConfirm)
      && (t in EditLabels ==> o.reply == Ask(o.state))
      && (t !in EditLabels ==> o.reply == Confirm(a))
  {
    var t := Trim(text);
    assert TextStep(EditMenu, a, text) == EditStep(a, t);
    EditStepOnlyMoves(a, t);
  }

  /** The jump table: a label jumps to its step with the answers kept, anything else shows the card. */
  lemma EditStepOnlyMoves(a: Answers, t: string)
    ensures var o := EditStep(a, t);
      && o.answers == a
      && (t in EditLabels <==> o.state != WaitConfirm)
      && (t in EditLabels ==> o.reply == Ask(o.state))
      && (t !in EditLabels ==> o == Confirmed(a))
  {
  }

  /** 面積 asks the land area exactly for a house, and the single area otherwise. */
  lemma EditArea(a: Answers)
    ensures TextStep(EditMenu, a, "面積").state ==
      if a.propertyType == Some(House) then AskAreaLand else AskArea
  {
    assert EditTarget(a, "面積") == Some(if a.propertyType == Some(House) then AskAreaLand else AskArea);
    EditTextStep(a, "面積");
  }

  /** 連絡先 asks the phone exactly when the contact method is 電話, and the e-mail otherwise. */
  lemma EditContact(a: Answers)
    ensures TextStep(EditMenu, a, "連絡先").state ==
      if a.contactMethod == Some(PhoneContact) then AskPhone else AskEmail
  {
    assert EditTarget(a, "連絡先") == Some(if a.contactMethod == Some(PhoneContact) then AskPhone else AskEmail);
    EditTextStep(a, "連絡先");
  }

  /** 間取り in the edit menu jumps to the layout question and keeps the answers. */
  lemma EditLayoutJump(a: Answers)
    ensures TextStep(EditMenu, a, "間取り") == Advance(AskLayout, a)
  {
    EditTextStep(a, "間取り");
  }

  // ---- unmatched input -------------------------------------------------------------------

  /** The states that accept only a listed label, each with its list. */
  predicate ChoiceRefuses(st: State, t: string) {
    || (st == AskType && t !in PropertyTypes)
    || (st == AskLayout && t !in Layouts)
    || (st == AskStatus && t !in Statuses)
    || (st == AskBreakCustomer && t != Continue)
    || (st == AskOwner && t !in Owners)
    || (st == AskMethod && t !in MethodLabels)
    || (st == AskTiming && t !in Timings)
    || (st == AskContactMethod && t !in ContactMethods)
    || (st == AskPrivacy && t != Agree)
  }

  /**
   * Nothing changes exactly when the trimmed text is no restart and either the state has no
   * text rule (INIT, the card, DONE) or a choice state refuses it; then only a thank-you phrase
   * is answered.
   */
  lemma UnmatchedChangesNothing(st: State, a: Answers, text: string)
    requires Inv(st, a)
    ensures var t := Trim(text); var o := TextStep(st, a, text);
      (o == Outcome(st, a, if IsThanks(t) then Thanks else Silent)) <==>
        && !IsRestart(t)
        && (st in {Init, WaitConfirm, Done} || ChoiceRefuses(st, t))
  {
    var t := Trim(text);
    if !IsRestart(t) && (st in {Init, WaitConfirm, Done} || ChoiceRefuses(st, t)) {
      RefusedChangesNothing(st, a, t);
    } else if IsRestart(t) {
    } else if st == EditMenu {
      EditMenuOnlyMoves(a, text);
    } else {
      RuleMovesOn(st, a, t);
    }
  }

  /** A refused or ruleless text leaves the session alone. */
  lemma RefusedChangesNothing(st: State, a: Answers, t: string)
    requires !IsRestart(t) && (st in {Init, WaitConfirm, Done} || ChoiceRefuses(st, t))
    ensures RuleStep(st, a, t) == Outcome(st, a, if IsThanks(t) then Thanks else Silent)
  {
    if IsPropertyState(st) {
      PropertyRefused(st, a, t);
    } else {
      CustomerRefused(st, a, t);
    }
  }

  /** A property-half choice state that refuses the text leaves the session alone. */
  lemma PropertyRefused(st: State, a: Answers, t: string)
    requires IsPropertyState(st) && ChoiceRefuses(st, t)
    ensures PropertyRule(st, a, t) == Unmatched(st, a, t)
  {
  }

  /** A customer-half choice state that refuses the text, or a state with no rule, leaves the session alone. */
  lemma CustomerRefused(st: State, a: Answers, t: string)
    requires !IsPropertyState(st) && (st in {Init, WaitConfirm, Done, EditMenu} || ChoiceRefuses(st, t))
    ensures CustomerRule(st, a, t) == Unmatched(st, a, t)
  {
  }

  /** Under the invariant, a rule that applies always changes the state, or re-prompts. */
  lemma RuleMovesOn(st: State, a: Answers, t: string)
    requires Inv(st, a) && st !in {Init, WaitConfirm, Done, EditMenu} && !ChoiceRefuses(st, t)
    ensures var o := RuleStep(st, a, t); o.state != st || o.reply.Retry?
  {
    if IsPropertyState(st) {
      PropertyMovesOn(st, a, t);
    } else {
      CustomerMovesOn(st, a, t);
    }
  }

  /** A property-half rule that applies changes the state or re-prompts. */
  lemma PropertyMovesOn(st: State, a: Answers, t: string)
    requires Inv(st, a) && IsPropertyState(st) && !ChoiceRefuses(st, t)
    ensures var o := PropertyRule(st, a, t); o.state != st || o.reply.Retry?
  {
  }

  /** A customer-half rule that applies changes the state or re-prompts. */
  lemma CustomerMovesOn(st: State, a: Answers, t: string)
    requires !IsPropertyState(st) && st !in {Init, WaitConfirm, Done, EditMenu} && !ChoiceRefuses(st, t)
    ensures var o := CustomerRule(st, a, t); o.state != st || o.reply.Retry?
  {
  }

  /** A thank-you reply is only ever given to one of the four thank-you phrases. */
  lemma ThanksOnlyForThanks(st: State, a: Answers, text: string)
    ensures TextStep(st, a, text).reply == Thanks ==> IsThanks(Trim(text))
  {
    var t := Trim(text);
    if !IsRestart(t) {
      if st == EditMenu {
        EditStepOnlyMoves(a, t);
      } else if IsPropertyState(st) {
        PropertyThanks(st, a, t);
      } else {
        CustomerThanks(st, a, t);
      }
    }
  }

  /** The property half answers a thank-you only to a thank-you phrase, and then changes nothing. */
  lemma PropertyThanks(st: State, a: Answers, t: string)
    ensures var o := PropertyRule(st, a, t); o.reply == Thanks ==> IsThanks(t) && o == Unmatched(st, a, t)
  {
  }

  /** The customer half answers a thank-you only to a thank-you phrase, and then changes nothing. */
  lemma CustomerThanks(st: State, a: Answers, t: string)
    ensures var o := CustomerRule(st, a, t); o.reply == Thanks ==> IsThanks(t) && o == Unmatched(st, a, t)
  {
  }

  // ---- single steps ----------------------------------------------------------------------

  /** The appraisal method is stored as its code and the timing is asked next. */
  lemma MethodStep(a: Answers, t: string)
    requires t in MethodLabels
    ensures TextStep(AskMethod, a, t) == Advance(AskTiming, a.(appraisalMethod := Some(MethodCode(t))))
  {
    MethodLabelIsPlain(t);
    CustomerTextStep(AskMethod, a, t);
  }

  /** The card shows the stored code as the label that was chosen. */
  lemma MethodCodeRoundTrip(t: string)
    requires t in MethodLabels
    ensures MethodLabel(Some(MethodCode(t))) == Some(t)
  {
  }

  /** A listed contact method is stored and the name is asked next. */
  lemma ContactMethodStep(a: Answers, t: string)
    requires t in ContactMethods
    ensures TextStep(AskContactMethod, a, t) == Advance(AskName, a.(contactMethod := Some(t)))
  {
    ContactMethodIsPlain(t);
    CustomerTextStep(AskContactMethod, a, t);
  }

  /** An accepted phone number is stored and the notes are asked next. */
  lemma PhoneStep(a: Answers, t: string)
    requires t == Trim(t) && IsPhone(t)
    ensures TextStep(AskPhone, a, t) == Advance(AskNotes, a.(phone := Some(t)))
  {
    AsciiIsNotRestart(t, 0);
    CustomerTextStep(AskPhone, a, t);
  }

  /** An accepted e-mail address is stored and the notes are asked next. */
  lemma MailStep(a: Answers, t: string)
    requires t == Trim(t) && IsMail(t)
    ensures TextStep(AskEmail, a, t) == Advance(AskNotes, a.(email := Some(t)))
  {
    AsciiIsNotRestart(t, IndexOf(t, '@').value);
    CustomerTextStep(AskEmail, a, t);
  }

  /** `なし` leaves the notes unset; any other text is stored; the consent step comes next. */
  lemma NotesStep(a: Answers, t: string)
    requires t == Trim(t) && !IsRestart(t)
    ensures var o := TextStep(AskNotes, a, t);
      && o.state == AskPrivacy
      && o.answers == (if t == NoNotes then a else a.(notes := Some(t)))
  {
    CustomerTextStep(AskNotes, a, t);
  }

  /** Consent records the agreement and shows the card of the answers. */
  lemma PrivacyStep(a: Answers)
    ensures TextStep(AskPrivacy, a, Agree) ==
      Outcome(WaitConfirm, a.(privacyAgree := true), Confirm(a.(privacyAgree := true)))
  {
    assert CustomerRule(AskPrivacy, a, Agree) == Confirmed(a.(privacyAgree := true));
    CustomerTextStep(AskPrivacy, a, Agree);
  }

  /** The card shown after consent has the same lines as the answers had before it. */
  lemma ConsentCardShowsAnswers(a: Answers)
    ensures var r := TextStep(AskPrivacy, a, Agree).reply; r.Confirm? && Render(r.card) == Render(a)
  {
    PrivacyStep(a);
    ContactDetailsNeverRendered(a, a.phone, a.email, true);
  }

  // ---- many events -----------------------------------------------------------------------

  /** The session after a sequence of events, starting from `st` and `a`. */
  function Run(st: State, a: Answers, events: seq<EventKind>): Outcome
    decreases |events|
  {
    if events == [] then Outcome(st, a, Silent)
    else
      var o := EventStep(st, a, events[0]);
      if |events| == 1 then o else Run(o.state, o.answers, events[1..])
  }

  /** From a new session, no sequence of events ever reaches one of the source's TypeErrors. */
  lemma {:induction false} RunKeepsInv(st: State, a: Answers, events: seq<EventKind>)
    requires Inv(st, a)
    ensures var o := Run(st, a, events); Inv(o.state, o.answers) && o.reply != Fault
    decreases |events|
  {
    if events != [] {
      EventKeepsInv(st, a, events[0]);
      if |events| > 1 {
        var o := EventStep(st, a, events[0]);
        RunKeepsInv(o.state, o.answers, events[1..]);
      }
    }
  }

  /** A fresh session satisfies the invariant, so `RunKeepsInv` covers every reachable session. */
  lemma NewSessionKeepsInv(events: seq<EventKind>)
    ensures var o := Run(Init, NoAnswers, events); Inv(o.state, o.answers) && o.reply != Fault
  {
    RunKeepsInv(Init, NoAnswers, events);
  }

  // ---- what the code does where a reader might expect otherwise ---------------------------

  /**
   * After an edit-menu jump nothing records that an edit is in progress: outside the edit menu
   * only the privacy consent leads to the card, so the dialog resumes the main sequence from
   * the chosen step and asks every later question again.
   */
  lemma OnlyConsentShowsCard(st: State, a: Answers, text: string)
    requires st != WaitConfirm && st != EditMenu
    ensures TextStep(st, a, text).state == WaitConfirm ==> st == AskPrivacy
  {
    var t := Trim(text);
    if !IsRestart(t) {
      if IsPropertyState(st) {
        PropertyNeverConfirms(st, a, t);
      } else {
        CustomerConfirmsOnConsent(st, a, t);
      }
    }
  }

  /** No property-half rule leads to the card. */
  lemma PropertyNeverConfirms(st: State, a: Answers, t: string)
    requires IsPropertyState(st)
    ensures PropertyRule(st, a, t).state != WaitConfirm
  {
  }

  /** In the customer half only the consent leads to the card (or the card stays where it is). */
  lemma CustomerConfirmsOnConsent(st: State, a: Answers, t: string)
    ensures CustomerRule(st, a, t).state == WaitConfirm ==> st == AskPrivacy || st == WaitConfirm
  {
  }

  /**
   * No step clears a phone number or an e-mail address once stored: after the contact method
   * is changed through the edit menu, the answers can hold both.
   */
  lemma ContactDetailsNeverCleared(st: State, a: Answers, text: string)
    requires !IsRestart(Trim(text))
    ensures var o := TextStep(st, a, text);
      && (a.phone.Some? ==> o.answers.phone.Some?)
      && (a.email.Some? ==> o.answers.email.Some?)
  {
    var t := Trim(text);
    if st == EditMenu {
      EditStepOnlyMoves(a, t);
    } else if IsPropertyState(st) {
      PropertyKeepsCustomerFields(st, a, t);
    } else {
      CustomerKeepsContact(st, a, t);
    }
  }

  /** The property half writes only property fields: every field of the customer half is kept. */
  lemma PropertyKeepsCustomerFields(st: State, a: Answers, t: string)
    ensures var b := PropertyRule(st, a, t).answers;
      b == a.(propertyType := b.propertyType, address := b.address, apartmentName := b.apartmentName,
              roomNo := b.roomNo, area := b.area, layout := b.layout, yearBuilt := b.yearBuilt,
              ageBuilt := b.ageBuilt, occupancy := b.occupancy)
  {
  }

  /** The customer half only ever sets the phone number and the e-mail address, never clears them. */
  lemma CustomerKeepsContact(st: State, a: Answers, t: string)
    ensures var b := CustomerRule(st, a, t).answers;
      && (a.phone.Some? ==> b.phone.Some?)
      && (a.email.Some? ==> b.email.Some?)
  {
  }

  /** The e-mail step keeps the phone number and the phone step keeps the e-mail address. */
  lemma PhoneAndMailCanBothBeSet(a: Answers, t: string)
    requires t == Trim(t) && IsMail(t) && a.phone.Some?
    ensures var o := TextStep(AskEmail, a, t);
      o.state == AskNotes && o.answers.phone == a.phone && o.answers.email == Some(t)
  {
    MailStep(a, t);
  }
}
