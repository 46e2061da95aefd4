/**
 * The confirmation card of lib/flexConfirm.js: the `items` list of `【label】value` lines that
 * `renderFlexConfirm` puts into the card body. The card envelope read from the template file
 * is not modelled; a call builds its lines from the answers alone.
 */
module FlexConfirm {
  import opened Wrappers
  import opened JsString
  import opened Intake

  /** JavaScript truthiness of an optional string: present and not empty. */
  predicate Truthy(v: Option<string>) {
    v.Some? && v.value != ""
  }

  /** `mapMethod`: the label of a known appraisal code; any other code is passed through. */
  function MethodLabel(code: Option<string>): (r: Option<string>)
    ensures r.None? <==> code.None?
    ensures code.Some? ==> (r.value == "" <==> code.value == "")
  {
    match code
    case None => None
    case Some(c) =>
      if c == "desk" then Some(DeskLabel)
      else if c == "online" then Some(OnlineLabel)
      else if c == "visit" then Some(VisitLabel)
      else Some(c)
  }

  /** `z`: an absent value renders as the empty string. */
  function OrEmpty(v: Option<string>): string {
    v.GetOr("")
  }

  /** One line of the card body. */
  datatype Row = Row(title: string, value: string)

  /** The text of a line: `【label】value`. */
  function RowText(r: Row): string {
    "【" + r.title + "】" + r.value
  }

  /** `row`: a line only when the value is truthy. */
  function MakeRow(title: string, value: Option<string>): (r: Option<Row>)
    ensures r.Some? <==> Truthy(value)
    ensures r.Some? ==> r.value.title == title && r.value.value != "" && value == Some(r.value.value)
  {
    if Truthy(value) then Some(Row(title, value.value)) else None
  }

  /** `joinAddr`: the truthy parts among prefecture, city and street, concatenated. */
  function JoinAddr(a: Option<Address>): string {
    match a
    case None => ""
    case Some(ad) =>
      (if Truthy(ad.pref) then ad.pref.value else "")
      + (if Truthy(ad.city) then ad.city.value else "")
      + (if Truthy(ad.street) then ad.street.value else "")
  }

  /** The address line: the joined address, then ` name` and ` room` when present, trimmed. */
  function AddressValue(address: Option<Address>, apartmentName: Option<string>, roomNo: Option<string>): string {
    var building :=
      if Truthy(apartmentName) then
        " " + apartmentName.value + (if Truthy(roomNo) then " " + roomNo.value else "")
      else "";
    Trim(JoinAddr(address) + building)
  }

  /** `／【間取り】layout` when a layout is present. */
  function LayoutSuffix(layout: Option<string>): string {
    if Truthy(layout) then "／【間取り】" + layout.value else ""
  }

  /** A field of `area`, read through optional chaining. */
  function AreaField(area: Option<Area>, f: Area -> Option<string>): Option<string> {
    match area
    case None => None
    case Some(ar) => f(ar)
  }

  /** `areaLine` (lib/flexConfirm.js:16-23). */
  function AreaValue(propertyType: Option<string>, area: Option<Area>, layout: Option<string>): (r: Option<string>)
    ensures r.Some? ==> r.value != ""
  {
    var ex := AreaField(area, (ar: Area) => ar.exclusive);
    var land := AreaField(area, (ar: Area) => ar.land);
    var building := AreaField(area, (ar: Area) => ar.building);
    if propertyType == Some(Apartment) && Truthy(ex) then
      Some("専有 " + ex.value + "㎡" + LayoutSuffix(layout))
    else if propertyType == Some(House) && (Truthy(land) || Truthy(building)) then
      Some("土地 " + OrEmpty(land) + "㎡／建物 " + OrEmpty(building) + "㎡" + LayoutSuffix(layout))
    else if propertyType == Some(LandPlot) && Truthy(land) then
      Some("土地 " + land.value + "㎡")
    else None
  }

  /** `year_built || age_built`. */
  function YearValue(yearBuilt: Option<string>, ageBuilt: Option<string>): Option<string> {
    if Truthy(yearBuilt) then yearBuilt else ageBuilt
  }

  /** The contact template literal: an absent method interpolates as `undefined`. */
  function ContactValue(contactMethod: Option<string>, name: Option<string>): string {
    (match contactMethod case None => "undefined" case Some(m) => m)
    + (if Truthy(name) then "／【氏名】" + name.value else "")
  }

  /** The labels of the card in their fixed order. */
  const Labels: seq<string> :=
    ["物件種別", "住所", "面積", "築年", "現況", "所有者", "売却理由", "査定方法", "時期", "ご連絡", "備考"]

  /**
   * The value given to `row` for the i-th label; the 築年 slot has none unless the property
   * is a house, and `row` of no value is no line, like the `null` the source puts there.
   */
  function SlotValue(a: Answers, i: nat): Option<string>
    requires i < |Labels|
  {
    if i == 0 then a.propertyType
    else if i == 1 then Some(AddressValue(a.address, a.apartmentName, a.roomNo))
    else if i == 2 then AreaValue(a.propertyType, a.area, a.layout)
    else if i == 3 then (if a.propertyType == Some(House) then YearValue(a.yearBuilt, a.ageBuilt) else None)
    else if i == 4 then a.occupancy
    else if i == 5 then a.ownerType
    else if i == 6 then a.saleReason
    else if i == 7 then MethodLabel(a.appraisalMethod)
    else if i == 8 then a.saleTiming
    else if i == 9 then Some(ContactValue(a.contactMethod, a.name))
    else a.notes
  }

  /** `items` before `filter(Boolean)`: one slot per label, empty where no line is shown. */
  function Items(a: Answers): (items: seq<Option<Row>>)
    ensures |items| == |Labels|
    ensures forall i | 0 <= i < |items| ::
      (items[i].Some? <==> Truthy(SlotValue(a, i)))
      && (items[i].Some? ==> items[i].value.title == Labels[i] && items[i].value.value != "")
  {
    seq(|Labels|, i requires 0 <= i < |Labels| => MakeRow(Labels[i], SlotValue(a, i)))
  }

  /** `filter(Boolean)`: the present entries, in order. */
  function Compact(items: seq<Option<Row>>): (rows: seq<Row>)
    ensures |rows| <= |items|
  {
    if items == [] then []
    else if items[0].Some? then [items[0].value] + Compact(items[1..])
    else Compact(items[1..])
  }

  /** The lines of the card, as structured rows. */
  function Rows(a: Answers): seq<Row> {
    Compact(Items(a))
  }

  /** `renderFlexConfirm(answers).contents.body.contents`, as the text of each line. */
  function Render(a: Answers): (lines: seq<string>)
    ensures |lines| == |Rows(a)|
    ensures forall k | 0 <= k < |lines| :: lines[k] == RowText(Rows(a)[k])
  {
    var rows := Rows(a);
    seq(|rows|, k requires 0 <= k < |rows| => RowText(rows[k]))
  }
}
