/** The recent-calls panel: the mother's name for each log, the masked
    phone number, the label of each result, and the first ten logs. */
module CallLogsList {
  import opened Common
  import opened Records

  /** JavaScript `s.slice(0, n)` for n >= 0: the prefix of `s` of length
      n, or all of `s` when it is shorter. */
  function SliceFront(s: string, n: nat): (r: string)
    ensures r <= s
    ensures |r| == if n <= |s| then n else |s|
  {
    if n <= |s| then s[..n] else s
  }

  /** JavaScript `s.slice(-n)` for n > 0: the last n characters, or all of
      `s` when it is shorter. */
  function SliceBack(s: string, n: nat): (r: string)
    ensures |r| == if n <= |s| then n else |s|
    ensures s == s[..|s| - |r|] + r
  {
    if n <= |s| then s[|s| - n..] else s
  }

  /** `maskPhone`: the first four characters, three stars, the last two.
      A number shorter than six shows its first four (or all) characters,
      the stars, then its last two (or all): the two ends overlap. */
  function MaskPhone(phone: string): (r: string)
    ensures |phone| >= 6 ==> |r| == 9 && r[..4] == phone[..4] && r[4..7] == "***"
                             && r[7..] == phone[|phone| - 2..]
    ensures |phone| < 6 ==>
      var front := if |phone| < 4 then |phone| else 4;
      var back := if |phone| < 2 then |phone| else 2;
      && |r| == front + 3 + back
      && r[..front] == phone[..front]
      && r[front..front + 3] == "***"
      && r[front + 3..] == phone[|phone| - back..]
  {
    SliceFront(phone, 4) + "***" + SliceBack(phone, 2)
  }

  /** For short numbers the two ends overlap: a five-character number shows
      its fourth character twice. */
  lemma MaskShortPhone()
    ensures MaskPhone("12345") == "1234***45"
    ensures MaskPhone("1") == "1***1"
  {
  }

  datatype ResultDisplay = ResultDisplay(text: string, color: string)

  /** `getResultDisplay`: the three known results get a label, anything
      else is shown as it is. */
  function GetResultDisplay(result: string): (r: ResultDisplay)
    ensures result == "answered" ==> r.text == "Answered"
    ensures result == "not_answered" ==> r.text == "No Answer"
    ensures result == "pressed_2" ==> r.text == "Not Taken"
    ensures result !in {"answered", "not_answered", "pressed_2"} ==>
      r.text == result && r.color == "text-gray-700 bg-gray-100"
  {
    if result == "answered" then ResultDisplay("Answered", "text-green-700 bg-green-100")
    else if result == "not_answered" then ResultDisplay("No Answer", "text-orange-700 bg-orange-100")
    else if result == "pressed_2" then ResultDisplay("Not Taken", "text-red-700 bg-red-100")
    else ResultDisplay(result, "text-gray-700 bg-gray-100")
  }

  /** The first mother with that id, as `find` returns her. */
  function FindRow(mothers: seq<MotherRow>, id: string): (r: Option<nat>)
    ensures r.Some? ==> r.value < |mothers| && mothers[r.value].id == id
    ensures r.Some? ==> forall j :: 0 <= j < r.value ==> mothers[j].id != id
    ensures r.None? <==> forall j :: 0 <= j < |mothers| ==> mothers[j].id != id
  {
    if mothers == [] then None
    else if mothers[0].id == id then Some(0)
    else match FindRow(mothers[1..], id)
      case None => None
      case Some(k) => Some(k + 1)
  }

  /** `getMotherName`: the name of the first mother with that id, or
      'Unknown' when there is none or her name is empty. */
  function GetMotherName(mothers: seq<MotherRow>, motherId: string): (r: string)
    ensures r != ""
    ensures FindRow(mothers, motherId).None? ==> r == "Unknown"
    ensures FindRow(mothers, motherId).Some? ==>
      var name := mothers[FindRow(mothers, motherId).value].name;
      r == if name == "" then "Unknown" else name
  {
    match FindRow(mothers, motherId)
    case None => "Unknown"
    case Some(k) => if mothers[k].name == "" then "Unknown" else mothers[k].name
  }

  /** The logs the panel lists, and the count its heading shows. */
  function Shown(callLogs: seq<CallLog>): (r: seq<CallLog>)
    ensures |r| == if |callLogs| < 10 then |callLogs| else 10
    ensures r <= callLogs
  {
    Take(callLogs, 10)
  }

  function HeaderCount(callLogs: seq<CallLog>): (r: nat)
    ensures r == |callLogs| && |Shown(callLogs)| <= r
  {
    |callLogs|
  }
}
