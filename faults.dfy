/**
 * The fault monitor's summary: the list of active faults, the banner above
 * it, and the colour and icon of each status.
 */
module Faults {
  import opened Wrappers
  import opened JsText

  /** One `[name, status]` pair of `Object.entries(allFaults)`; a missing status is `None`. */
  datatype FaultEntry = FaultEntry(name: string, status: Option<string>)

  /** The filter keeps a fault only when its status is exactly `'Active'`. */
  predicate IsActive(e: FaultEntry) {
    e.status == Some("Active")
  }

  /** `Object.entries(allFaults).filter(([_, status]) => status === 'Active')`. */
  function ActiveFaults(entries: seq<FaultEntry>): (r: seq<FaultEntry>)
    ensures |r| <= |entries|
    ensures forall e :: e in r <==> e in entries && IsActive(e)
  {
    if |entries| == 0 then []
    else
      var rest := ActiveFaults(entries[..|entries| - 1]);
      var last := entries[|entries| - 1];
      assert entries == entries[..|entries| - 1] + [last];
      if IsActive(last) then rest + [last] else rest
  }

  /** The filter keeps the entries' order: filtering two runs is filtering each. */
  lemma {:induction false} ActiveFaultsAppend(a: seq<FaultEntry>, b: seq<FaultEntry>)
    ensures ActiveFaults(a + b) == ActiveFaults(a) + ActiveFaults(b)
  {
    if |b| > 0 {
      var b' := b[..|b| - 1];
      assert (a + b)[..|a + b| - 1] == a + b';
      ActiveFaultsAppend(a, b');
    } else {
      assert a + b == a;
    }
  }

  /** The banner text: the number of active faults, or the all-clear. */
  function Banner(entries: seq<FaultEntry>): string {
    var n := |ActiveFaults(entries)|;
    if n > 0 then NatToString(n) + " ACTIVE FAULTS" else "SYSTEM CLEAR"
  }

  /**
   * The banner reads "SYSTEM CLEAR" exactly when no status is exactly
   * `'Active'`; otherwise it starts with the decimal count of those faults.
   */
  lemma BannerFacts(entries: seq<FaultEntry>)
    ensures Banner(entries) == "SYSTEM CLEAR" <==> forall e :: e in entries ==> !IsActive(e)
    ensures var n := |ActiveFaults(entries)|;
      n > 0 ==> Banner(entries) == NatToString(n) + " ACTIVE FAULTS" && DigitsValue(NatToString(n)) == n
  {
    var active := ActiveFaults(entries);
    var n := |active|;
    if n > 0 {
      assert active[0] in entries;
      NatToStringValue(n);
      var b := Banner(entries);
      assert b[0] == NatToString(n)[0];
      assert IsDigit(b[0]);
    }
  }

  datatype FaultKind = ActiveKind | InactiveKind | UnknownKind

  datatype FaultIcon = AlertTriangle | CheckCircle | AlertCircle

  /** `switch (status?.toLowerCase())`: case is ignored here, unlike in the filter. */
  function KindOf(status: Option<string>): FaultKind {
    match status
    case None => UnknownKind
    case Some(s) =>
      var l := ToLower(s);
      if l == "active" then ActiveKind else if l == "inactive" then InactiveKind else UnknownKind
  }

  function StatusColor(status: Option<string>): string {
    match KindOf(status)
    case ActiveKind => "text-red-400"
    case InactiveKind => "text-green-400"
    case UnknownKind => "text-gray-400"
  }

  function StatusIcon(status: Option<string>): FaultIcon {
    match KindOf(status)
    case ActiveKind => AlertTriangle
    case InactiveKind => CheckCircle
    case UnknownKind => AlertCircle
  }

  lemma LowerActive()
    ensures ToLower("Active") == "active"
  {
    assert ToLower("Active") == ['a'] + ToLower("ctive");
  }

  lemma LowerUpperActive()
    ensures ToLower("ACTIVE") == "active"
  {
    assert ToLower("ACTIVE") == ['a'] + ToLower("CTIVE");
  }

  /** Colour and icon agree: red with the triangle, green with the check, grey otherwise. */
  lemma ColorMatchesIcon(status: Option<string>)
    ensures StatusColor(status) == "text-red-400" <==> StatusIcon(status) == AlertTriangle
    ensures StatusColor(status) == "text-green-400" <==> StatusIcon(status) == CheckCircle
    ensures StatusColor(status) == "text-gray-400" <==> StatusIcon(status) == AlertCircle
  {
  }

  /** Every fault the filter counts is drawn red. */
  lemma CountedFaultsAreRed(entries: seq<FaultEntry>, e: FaultEntry)
    requires e in ActiveFaults(entries)
    ensures StatusColor(e.status) == "text-red-400" && StatusIcon(e.status) == AlertTriangle
  {
    LowerActive();
  }

  /**
   * The converse fails: a fault whose status is `'ACTIVE'` is drawn red with
   * the alert icon, yet the filter and the banner do not count it.
   */
  lemma UpperCaseActiveNotCounted(name: string)
    ensures var e := FaultEntry(name, Some("ACTIVE"));
      StatusColor(e.status) == "text-red-400" && ActiveFaults([e]) == []
      && Banner([e]) == "SYSTEM CLEAR"
  {
    LowerUpperActive();
    var e := FaultEntry(name, Some("ACTIVE"));
    assert [e][..0] == [];
  }
}
