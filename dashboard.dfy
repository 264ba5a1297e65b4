/** The health worker's dashboard: the mother records split into three
    lists by risk label, the label and call-status styling, and the bulk call
    button, which is disabled while a bulk call is in flight. */
module Dashboard {
  import opened Common
  import opened Risk

  /** The mothers carrying label `l`, in store order. */
  function ByLabel(mothers: seq<Mother>, l: RiskLabel): (r: seq<Mother>)
    ensures |r| <= |mothers|
    ensures forall i :: 0 <= i < |r| ==> r[i] in mothers && r[i].riskLabel == l
    ensures forall i :: 0 <= i < |mothers| && mothers[i].riskLabel == l ==> mothers[i] in r
  {
    Filter(mothers, (m: Mother) => m.riskLabel == l)
  }

  /** Splitting keeps store order: the list for a store made of two parts is
      the list for the first part followed by the list for the second. */
  lemma ByLabelKeepsOrder(a: seq<Mother>, b: seq<Mother>, l: RiskLabel)
    ensures ByLabel(a + b, l) == ByLabel(a, l) + ByLabel(b, l)
  {
    FilterAppend(a, b, (m: Mother) => m.riskLabel == l);
  }

  /** The three lists together have exactly as many entries as the store. */
  lemma {:induction false} PartitionSizes(mothers: seq<Mother>)
    ensures |ByLabel(mothers, Red)| + |ByLabel(mothers, Yellow)| + |ByLabel(mothers, Green)| == |mothers|
  {
    if mothers != [] {
      var rest := mothers[1..];
      PartitionSizes(rest);
      var m := mothers[0];
      assert ByLabel(mothers, Red) == (if m.riskLabel == Red then [m] else []) + ByLabel(rest, Red);
      assert ByLabel(mothers, Yellow) == (if m.riskLabel == Yellow then [m] else []) + ByLabel(rest, Yellow);
      assert ByLabel(mothers, Green) == (if m.riskLabel == Green then [m] else []) + ByLabel(rest, Green);
    }
  }

  /** Each mother is shown in the list of her own label and in no other. */
  lemma ExactlyOneList(mothers: seq<Mother>, i: nat, l: RiskLabel)
    requires i < |mothers|
    ensures mothers[i] in ByLabel(mothers, l) <==> mothers[i].riskLabel == l
  {
    var r := ByLabel(mothers, l);
    if mothers[i] in r {
      var k :| 0 <= k < |r| && r[k] == mothers[i];
    }
  }

  /** Classes of the label pill: the pill's colour is the label's. */
  function LabelClasses(l: RiskLabel): (r: string)
    ensures StartsWith(r, "bg-red-") <==> l == Red
    ensures StartsWith(r, "bg-yellow-") <==> l == Yellow
    ensures StartsWith(r, "bg-green-") <==> l == Green
  {
    match l
    case Red => OnlyTone("bg-red-500 text-white", "bg-red-"); "bg-red-500 text-white"
    case Yellow => OnlyTone("bg-yellow-400 text-gray-800", "bg-yellow-"); "bg-yellow-400 text-gray-800"
    case Green => OnlyTone("bg-green-500 text-white", "bg-green-"); "bg-green-500 text-white"
  }

  /** Classes of the last-contact badge; the default branch serves 'N/A'.
      An answered call is green, one missed call yellow, two or more red,
      and a mother never called grey. */
  function CallStatusBadge(s: CallStatus): (r: string)
    ensures StartsWith(r, "bg-green-") <==> s == Answered
    ensures StartsWith(r, "bg-yellow-") <==> s == MissedOnce
    ensures StartsWith(r, "bg-red-") <==> s == MissedTwicePlus
    ensures StartsWith(r, "bg-gray-") <==> s == NotCalled
  {
    match s
    case Answered => OnlyTone("bg-green-100 text-green-700", "bg-green-"); "bg-green-100 text-green-700"
    case MissedOnce => OnlyTone("bg-yellow-100 text-yellow-700", "bg-yellow-"); "bg-yellow-100 text-yellow-700"
    case MissedTwicePlus => OnlyTone("bg-red-100 text-red-700", "bg-red-"); "bg-red-100 text-red-700"
    case NotCalled => OnlyTone("bg-gray-100 text-gray-700", "bg-gray-"); "bg-gray-100 text-gray-700"
  }

  /** The background prefixes the styles use. */
  const Tones: seq<string> := ["bg-red-", "bg-yellow-", "bg-green-", "bg-gray-"]

  /** A class list that opens with the background prefix `tone` opens with no
      other: the tones differ at index 3 or, for green and grey, index 5. */
  lemma OnlyTone(classes: string, tone: string)
    requires tone in Tones && StartsWith(classes, tone)
    ensures forall t :: t in Tones ==> (StartsWith(classes, t) <==> t == tone)
  {
    forall t | t in Tones && t != tone ensures !StartsWith(classes, t) {
      if t[3] != tone[3] {
        assert classes[3] == tone[3];
        NotPrefixAt(classes, t, 3);
      } else {
        assert classes[5] == tone[5];
        NotPrefixAt(classes, t, 5);
      }
    }
  }

  /** Different labels, and different call statuses, are styled differently. */
  lemma StylesDistinguish(a: RiskLabel, b: RiskLabel, s: CallStatus, t: CallStatus)
    ensures LabelClasses(a) == LabelClasses(b) ==> a == b
    ensures CallStatusBadge(s) == CallStatusBadge(t) ==> s == t
  {
  }

  class DashboardPage {
    const store: MotherStore
    var calling: bool

    constructor (store: MotherStore)
      ensures this.store == store && !calling
    {
      this.store := store;
      calling := false;
    }

    /** The first half of `handleSimulateCall`: the button, enabled only
        while no bulk call is running, switches to "Calling...". */
    method BeginSimulateCall()
      requires !calling
      modifies this
      ensures calling
    {
      calling := true;
    }

    /** The second half, after the delay: one bulk call over the store, then
        the button is enabled again. */
    method FinishSimulateCall(answers: seq<bool>)
      requires calling && |answers| == |store.mothers|
      modifies this, store
      ensures !calling
      ensures |store.mothers| == |old(store.mothers)|
      ensures forall i :: 0 <= i < |store.mothers| ==>
        store.mothers[i] == AfterCall(old(store.mothers)[i], answers[i])
      ensures AllSettled(store.mothers)
    {
      store.SimulateBulkCall(answers);
      calling := false;
    }
  }
}
