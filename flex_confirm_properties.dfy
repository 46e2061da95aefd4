/**
 * Properties of the confirmation card: the lines come in the fixed label order, a line is
 * never blank, each label's line shows exactly what lib/flexConfirm.js computes for it, and
 * the fields the card never mentions do not change it.
 */
module FlexConfirmProperties {
  import opened Wrappers
  import opened JsString
  import opened Intake
  import opened FlexConfirm

  /** The positions from `i` on that hold an entry, in increasing order. */
  ghost function PresentFrom(items: seq<Option<Row>>, i: nat): (p: seq<nat>)
    requires i <= |items|
    decreases |items| - i
    ensures forall k | 0 <= k < |p| :: i <= p[k] < |items| && items[p[k]].Some?
    ensures forall j | i <= j < |items| && items[j].Some? :: j in p
    ensures forall k, l | 0 <= k < l < |p| :: p[k] < p[l]
  {
    if i == |items| then []
    else if items[i].Some? then [i] + PresentFrom(items, i + 1)
    else PresentFrom(items, i + 1)
  }

  /** The positions of the present entries of `items`. */
  ghost function PresentIndices(items: seq<Option<Row>>): seq<nat> {
    PresentFrom(items, 0)
  }

  /** `filter(Boolean)` on the entries from `i` on keeps exactly those at the present positions, in order. */
  lemma {:induction false} CompactFrom(items: seq<Option<Row>>, i: nat)
    requires i <= |items|
    decreases |items| - i
    ensures var p := PresentFrom(items, i);
      && |Compact(items[i..])| == |p|
      && forall k | 0 <= k < |p| :: Compact(items[i..])[k] == items[p[k]].value
  {
    if i < |items| {
      CompactFrom(items, i + 1);
      assert items[i..][1..] == items[i + 1..];
      assert Compact(items[i..]) ==
        (if items[i].Some? then [items[i].value] else []) + Compact(items[i + 1..]);
    }
  }

  /** `filter(Boolean)` keeps exactly the present entries, in their order. */
  lemma CompactByIndices(items: seq<Option<Row>>)
    ensures var p := PresentIndices(items);
      && |Compact(items)| == |p|
      && forall k | 0 <= k < |p| :: Compact(items)[k] == items[p[k]].value
  {
    CompactFrom(items, 0);
    assert items[0..] == items;
  }

  /** No label occurs twice. */
  lemma LabelsDistinct(i: nat, j: nat)
    requires i < |Labels| && j < |Labels| && Labels[i] == Labels[j]
    ensures i == j
  {
  }

  /**
   * The card's lines follow the fixed label order 物件種別, 住所, 面積, 築年, 現況, 所有者,
   * 売却理由, 査定方法, 時期, ご連絡, 備考: the k-th line carries the label of the k-th present
   * slot, a label's line is there exactly when its slot is, and no line has an empty value.
   */
  lemma RowsFollowLabelOrder(a: Answers)
    ensures var p := PresentIndices(Items(a)); var rows := Rows(a);
      && |rows| == |p|
      && (forall k | 0 <= k < |rows| :: p[k] < |Labels| && rows[k] == Items(a)[p[k]].value)
      && (forall k | 0 <= k < |rows| :: rows[k].title == Labels[p[k]] && rows[k].value != "")
      && (forall k, l | 0 <= k < l < |rows| :: p[k] < p[l])
      && (forall i | 0 <= i < |Labels| :: i in p <==> Items(a)[i].Some?)
  {
    CompactByIndices(Items(a));
  }

  /** The card shows `【label】v` for the i-th label exactly when that slot holds `v`. */
  ghost predicate Shows(a: Answers, title: string, v: string) {
    Row(title, v) in Rows(a)
  }

  lemma ShowsSlot(a: Answers, i: nat, v: string)
    requires i < |Labels|
    ensures Shows(a, Labels[i], v) <==> Items(a)[i] == Some(Row(Labels[i], v))
  {
    if Shows(a, Labels[i], v) {
      ShownLineIsSlot(a, i, v);
    }
    if Items(a)[i] == Some(Row(Labels[i], v)) {
      SlotIsShown(a, i, v);
    }
  }

  /** A line with the i-th label comes from the i-th slot, since no label occurs twice. */
  lemma ShownLineIsSlot(a: Answers, i: nat, v: string)
    requires i < |Labels| && Shows(a, Labels[i], v)
    ensures Items(a)[i] == Some(Row(Labels[i], v))
  {
    CompactByIndices(Items(a));
    var rows, p := Rows(a), PresentIndices(Items(a));
    var k :| 0 <= k < |rows| && rows[k] == Row(Labels[i], v);
    LabelsDistinct(p[k], i);
  }

  /** A present slot is a line of the card. */
  lemma SlotIsShown(a: Answers, i: nat, v: string)
    requires i < |Labels| && Items(a)[i] == Some(Row(Labels[i], v))
    ensures Shows(a, Labels[i], v)
  {
    RowsFollowLabelOrder(a);
    var p := PresentIndices(Items(a));
    assert i in p;
    var k :| 0 <= k < |p| && p[k] == i;
    assert Rows(a)[k] == Row(Labels[i], v);
  }

  /** The 物件種別 line shows the property type whenever one is set. */
  lemma TypeLine(a: Answers, v: string)
    ensures Shows(a, "物件種別", v) <==> Truthy(a.propertyType) && v == a.propertyType.value
  {
    ShowsSlot(a, 0, v);
  }

  /**
   * The 築年 line appears only for a house and shows `year_built` when set, otherwise
   * `age_built`.
   */
  lemma YearLine(a: Answers, v: string)
    ensures Shows(a, "築年", v) <==>
      && a.propertyType == Some(House)
      && ((Truthy(a.yearBuilt) && v == a.yearBuilt.value)
          || (!Truthy(a.yearBuilt) && Truthy(a.ageBuilt) && v == a.ageBuilt.value))
  {
    ShowsSlot(a, 3, v);
  }

  /**
   * The 査定方法 line shows the label of `desk`, `online` or `visit`, passes any other
   * non-empty code through unchanged, and is dropped when no code is stored.
   */
  lemma MethodLine(a: Answers, v: string)
    ensures Shows(a, "査定方法", v) <==>
      match a.appraisalMethod
      case None => false
      case Some(c) =>
        if c == "desk" then v == DeskLabel
        else if c == "online" then v == OnlineLabel
        else if c == "visit" then v == VisitLabel
        else c != "" && v == c
  {
    ShowsSlot(a, 7, v);
  }

  /** The 面積 line is shown exactly when the area text exists; it is never empty. */
  lemma AreaLine(a: Answers, v: string)
    ensures Shows(a, "面積", v) <==> AreaValue(a.propertyType, a.area, a.layout) == Some(v)
  {
    ShowsSlot(a, 2, v);
  }

  /** For an apartment the area text needs `exclusive`, with the layout appended when set. */
  lemma ApartmentArea(area: Option<Area>, layout: Option<string>)
    ensures AreaValue(Some(Apartment), area, layout) ==
      if area.Some? && Truthy(area.value.exclusive) then
        Some("専有 " + area.value.exclusive.value + "㎡"
             + (if Truthy(layout) then "／【間取り】" + layout.value else ""))
      else None
  {
  }

  /**
   * For a house the area text needs `land` or `building`; a missing one of the two renders as
   * the empty string, and the layout is appended when set.
   */
  lemma HouseArea(area: Option<Area>, layout: Option<string>)
    ensures AreaValue(Some(House), area, layout) ==
      if area.Some? && (Truthy(area.value.land) || Truthy(area.value.building)) then
        Some("土地 " + area.value.land.GetOr("") + "㎡／建物 " + area.value.building.GetOr("") + "㎡"
             + (if Truthy(layout) then "／【間取り】" + layout.value else ""))
      else None
  {
  }

  /** For land the area text shows `land` only, never the layout. */
  lemma LandArea(area: Option<Area>, layout: Option<string>)
    ensures AreaValue(Some(LandPlot), area, layout) ==
      if area.Some? && Truthy(area.value.land) then Some("土地 " + area.value.land.value + "㎡")
      else None
  {
  }

  /** Any other property type, or none, has no 面積 line. */
  lemma OtherTypeHasNoArea(propertyType: Option<string>, area: Option<Area>, layout: Option<string>)
    requires propertyType !in {Some(Apartment), Some(House), Some(LandPlot)}
    ensures AreaValue(propertyType, area, layout) == None
  {
  }

  /** The layout only shows for an apartment or a house. */
  lemma LayoutIgnoredForOtherTypes(a: Answers, layout: Option<string>)
    requires a.propertyType != Some(Apartment) && a.propertyType != Some(House)
    ensures Render(a.(layout := layout)) == Render(a)
  {
    var b := a.(layout := layout);
    assert AreaValue(b.propertyType, b.area, b.layout) == AreaValue(a.propertyType, a.area, a.layout);
    assert forall i | 0 <= i < |Labels| :: SlotValue(b, i) == SlotValue(a, i);
    assert Items(b) == Items(a);
  }

  /**
   * Without a building name, the 住所 line of a prefecture, city and street that are all set is
   * the three run together in that order, with no separator.
   */
  lemma AddressFromParts(a: Answers, pref: string, city: string, street: string, v: string)
    requires a.address == Some(Address(Some(pref), Some(city), Some(street)))
    requires !Truthy(a.apartmentName)
    requires pref != "" && city != "" && street != "" && IsTrimmed(pref) && IsTrimmed(street)
    ensures Shows(a, "住所", v) <==> v == pref + city + street
  {
    var j := pref + city + street;
    assert JoinAddr(a.address) == j;
    assert IsTrimmed(j) by {
      assert j[0] == pref[0] && j[|j| - 1] == street[|street| - 1];
    }
    TrimOfTrimmed(j);
    AddressWithoutName(a.address, a.apartmentName, a.roomNo);
    AddressLine(a, v);
  }

  /** An absent or empty part of the address adds nothing to the 住所 text. */
  lemma FalsyAddressPartsAddNothing(pref: Option<string>, city: Option<string>, street: Option<string>,
                                    name: Option<string>, room: Option<string>)
    ensures !Truthy(pref) ==>
      AddressValue(Some(Address(pref, city, street)), name, room) == AddressValue(Some(Address(None, city, street)), name, room)
    ensures !Truthy(city) ==>
      AddressValue(Some(Address(pref, city, street)), name, room) == AddressValue(Some(Address(pref, None, street)), name, room)
    ensures !Truthy(street) ==>
      AddressValue(Some(Address(pref, city, street)), name, room) == AddressValue(Some(Address(pref, city, None)), name, room)
    ensures AddressValue(Some(Address(None, None, None)), name, room) == AddressValue(None, name, room)
  {
  }

  /** The 住所 line is shown exactly when the address text is not empty, and then it is that text. */
  lemma AddressLine(a: Answers, v: string)
    ensures Shows(a, "住所", v) <==> v != "" && v == AddressValue(a.address, a.apartmentName, a.roomNo)
  {
    ShowsSlot(a, 1, v);
  }

  /**
   * The address text is trimmed; without a building name it is the trimmed joined address,
   * whatever the room number.
   */
  lemma AddressWithoutName(address: Option<Address>, name: Option<string>, room: Option<string>)
    requires !Truthy(name)
    ensures IsTrimmed(AddressValue(address, name, room))
    ensures AddressValue(address, name, room) == Trim(JoinAddr(address))
    ensures AddressValue(address, name, room) == AddressValue(address, name, None)
  {
    assert JoinAddr(address) + "" == JoinAddr(address);
  }

  /** With a building name, ` name` follows the joined address, and then ` room` when one is set. */
  lemma AddressWithName(address: Option<Address>, name: Option<string>, room: Option<string>)
    requires Truthy(name)
    ensures IsTrimmed(AddressValue(address, name, room))
    ensures AddressValue(address, name, room) ==
      Trim(JoinAddr(address) + " " + name.value + (if Truthy(room) then " " + room.value else ""))
  {
    var tail := if Truthy(room) then " " + room.value else "";
    assert JoinAddr(address) + (" " + name.value + tail) == JoinAddr(address) + " " + name.value + tail;
  }

  /**
   * The ご連絡 line is the contact method (`undefined` when none was chosen) followed by
   * `／【氏名】name` when a name is set; it is shown unless both parts are empty, which only an
   * empty stored method with no name gives.
   */
  lemma ContactLine(a: Answers, v: string)
    ensures ContactValue(a.contactMethod, a.name) ==
      (if a.contactMethod.Some? then a.contactMethod.value else "undefined")
      + (if Truthy(a.name) then "／【氏名】" + a.name.value else "")
    ensures Shows(a, "ご連絡", v) <==> v == ContactValue(a.contactMethod, a.name) && v != ""
    ensures ContactValue(a.contactMethod, a.name) == "" <==> a.contactMethod == Some("") && !Truthy(a.name)
  {
    ShowsSlot(a, 9, v);
  }

  /** The phone number, the e-mail address and the privacy consent never reach the card. */
  lemma ContactDetailsNeverRendered(a: Answers, phone: Option<string>, email: Option<string>, agree: bool)
    ensures Render(a.(phone := phone, email := email, privacyAgree := agree)) == Render(a)
  {
    var b := a.(phone := phone, email := email, privacyAgree := agree);
    assert forall i | 0 <= i < |Labels| :: SlotValue(b, i) == SlotValue(a, i);
    assert Items(b) == Items(a);
  }
}
