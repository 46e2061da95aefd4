/**
 * The data of the appraisal-intake dialog: the dialog states, the answer record that the
 * dialog fills in, and the exact labels the dialog accepts (app.js keeps them as literals).
 */
module Intake {
  import opened Wrappers

  /** The dialog steps, in the order of the main sequence, plus the confirmation and edit steps. */
  datatype State =
    | Init
    | AskType | AskAddressPref | AskAddressCity | AskAddressStreet
    | AskAptName | AskAptRoomNo
    | AskArea | AskAreaLand | AskAreaBuilding
    | AskLayout | AskYearBuilt | AskStatus | AskBreakCustomer
    | AskOwner | AskReason | AskMethod | AskTiming | AskContactMethod | AskName
    | AskPhone | AskEmail | AskNotes | AskPrivacy
    | WaitConfirm | EditMenu | Done

  /** `answers.address`: created with only `pref`, then `city` and `street` are added to it. */
  datatype Address = Address(pref: Option<string>, city: Option<string>, street: Option<string>)

  /** `answers.area`: `{exclusive}`, `{land}` or `{land, building}` depending on the property type. */
  datatype Area = Area(exclusive: Option<string>, land: Option<string>, building: Option<string>)

  /** `answers`: every field is absent until the step that asks for it stores the text. */
  datatype Answers = Answers(
    propertyType: Option<string>,
    address: Option<Address>,
    apartmentName: Option<string>,
    roomNo: Option<string>,
    area: Option<Area>,
    layout: Option<string>,
    yearBuilt: Option<string>,
    ageBuilt: Option<string>,
    occupancy: Option<string>,
    ownerType: Option<string>,
    saleReason: Option<string>,
    appraisalMethod: Option<string>,
    saleTiming: Option<string>,
    contactMethod: Option<string>,
    name: Option<string>,
    phone: Option<string>,
    email: Option<string>,
    notes: Option<string>,
    privacyAgree: bool)

  /** The empty answer record `{}`. */
  const NoAnswers: Answers :=
    Answers(None, None, None, None, None, None, None, None, None, None,
            None, None, None, None, None, None, None, None, false)

  // Property types (app.js:158); the dialog and the confirmation card branch on the first three.
  const Apartment: string := "マンション"
  const House: string := "戸建て"
  const LandPlot: string := "土地"
  const OtherProperty: string := "その他"
  const PropertyTypes: seq<string> := [Apartment, House, LandPlot, OtherProperty]

  const Layouts: seq<string> := ["1R", "1K", "1DK", "1LDK", "2LDK", "3LDK", "4LDK以上", "不明"]
  const Statuses: seq<string> := ["居住中", "空室", "賃貸中", "更地", "建築中"]
  const Owners: seq<string> := ["本人所有", "親族所有", "法人名義", "相続予定", "代理人", "第三者"]
  const Timings: seq<string> := ["できるだけ早く", "3か月以内", "半年以内", "1年以内", "未定"]

  // Appraisal methods as shown to the user and the short codes stored for them.
  const DeskLabel: string := "机上査定"
  const OnlineLabel: string := "オンライン面談"
  const VisitLabel: string := "訪問査定"
  const MethodLabels: seq<string> := [DeskLabel, OnlineLabel, VisitLabel]

  // Contact methods (app.js:250); the name step branches on the last two.
  const LineOnly: string := "LINEのみ"
  const PhoneContact: string := "電話"
  const MailContact: string := "メール"
  const ContactMethods: seq<string> := [LineOnly, PhoneContact, MailContact]

  /** The only input the break between the two halves accepts. */
  const Continue: string := "続ける"
  /** The only input the privacy step accepts. */
  const Agree: string := "同意する"
  /** The notes answer that means "no notes". */
  const NoNotes: string := "なし"

  /** Texts that restart the dialog in every state (app.js:133). */
  const RestartWords: seq<string> := ["売却査定", "査定", "新規査定", "やり直し", "もう一度査定"]
  /** Texts answered with a thank-you when no other rule applies (app.js:282). */
  const ThanksWords: seq<string> := ["ありがとう", "ありがとうございます", "感謝", "サンキュー"]

  // Postback payloads.
  const StartAppraisal: string := "START_APPRAISAL"
  const Submit: string := "SUBMIT"
  const Edit: string := "EDIT"
}
