/** `MessageType` (General/Component/organism/Message/MessageType.swift): the
    three message streams and the labels shown for them. */
module MessageTypes {

  datatype MessageType = FromSelfToSelf | FromSelfToOther | FromOtherToSelf

  /** `CaseIterable.allCases`, in declaration order. */
  const AllCases: seq<MessageType> := [FromSelfToSelf, FromSelfToOther, FromOtherToSelf]

  /** Every value is one of the three cases, each listed once. */
  lemma AllCasesComplete(t: MessageType)
    ensures t in AllCases
    ensures |AllCases| == 3
    ensures forall i, j :: 0 <= i < j < |AllCases| ==> AllCases[i] != AllCases[j]
  {
  }

  /** The raw value, which is the case name. */
  function RawValue(t: MessageType): string {
    match t
    case FromSelfToSelf => "fromSelfToSelf"
    case FromSelfToOther => "fromSelfToOther"
    case FromOtherToSelf => "fromOtherToSelf"
  }

  /** The raw values are distinct, so a raw value names one case. */
  lemma RawValueInjective(a: MessageType, b: MessageType)
    ensures RawValue(a) == RawValue(b) ==> a == b
  {
  }

  /** `prefix`: empty only for the message to oneself. */
  function Prefix(t: MessageType): (r: string)
    ensures r == [] <==> t == FromSelfToSelf
  {
    match t
    case FromSelfToSelf => ""
    case FromSelfToOther => "To"
    case FromOtherToSelf => "From"
  }

  /** `title`. */
  function Title(t: MessageType): string {
    match t
    case FromSelfToSelf => "To Me"
    case FromSelfToOther => "Sent"
    case FromOtherToSelf => "Received"
  }

  /** `tabBarTitle`, spelled out separately in the source. */
  function TabBarTitle(t: MessageType): string {
    match t
    case FromSelfToSelf => "To Me"
    case FromSelfToOther => "Sent"
    case FromOtherToSelf => "Received"
  }

  /** The labels of the three cases, in declaration order. */
  lemma LabelsInCaseOrder()
    ensures Prefix(AllCases[0]) == "" && Prefix(AllCases[1]) == "To" && Prefix(AllCases[2]) == "From"
    ensures Title(AllCases[0]) == "To Me" && Title(AllCases[1]) == "Sent" && Title(AllCases[2]) == "Received"
  {
  }

  /** The tab bar shows each stream under its title, and the three titles
      differ. */
  lemma TabBarTitleIsTitle(t: MessageType, u: MessageType)
    ensures TabBarTitle(t) == Title(t)
    ensures Title(t) == Title(u) ==> t == u
  {
  }
}
