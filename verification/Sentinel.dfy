/**
 The marked payload in a Python search run's output, and the parser that looks for it
 (`e2e-cross-sdk/harness/helpers.py`).
 */
module Sentinel {
  import opened Wrappers

  const RESULTS := ">>>RESULTS<<<"
  const END := ">>>END<<<"

  datatype Error = NoMarkers

  predicate OccursAt(s: string, m: string, k: nat) {
    k + |m| <= |s| && s[k..k + |m|] == m
  }

  ghost predicate Occurs(s: string, m: string) {
    exists k: nat :: OccursAt(s, m, k)
  }

  /** `str.find`, with None for -1. */
  function Find(s: string, m: string): (r: Option<nat>)
    ensures r.Some? ==> OccursAt(s, m, r.value) && forall k: nat :: k < r.value ==> !OccursAt(s, m, k)
    ensures r.None? ==> !Occurs(s, m)
  {
    if |s| < |m| then None
    else if s[..|m|] == m then
      assert s[0..0 + |m|] == s[..|m|];
      Some(0)
    else
      ShiftedOccurrences(s, m);
      match Find(s[1..], m)
      case None => None
      case Some(k) => Some(k + 1)
  }

  lemma ShiftedOccurrences(s: string, m: string)
    requires s != []
    ensures forall k: nat :: k > 0 ==> (OccursAt(s, m, k) <==> OccursAt(s[1..], m, k - 1))
  {
    forall k: nat | k > 0 ensures OccursAt(s, m, k) <==> OccursAt(s[1..], m, k - 1) {
      if k + |m| <= |s| {
        assert s[1..][k - 1..k - 1 + |m|] == s[k..k + |m|];
      }
    }
  }

  /** What the search script prints, amid whatever else is on standard output. */
  function Printed(before: string, payload: string, after: string): string {
    before + RESULTS + payload + END + after
  }

  /** The text between the first of each marker. */
  function Parse(stdout: string): Result<string, Error> {
    var (start, end) := (Find(stdout, RESULTS), Find(stdout, END));
    if start.None? || end.None? || end.value < start.value then Err(NoMarkers)
    else Ok(Slice(stdout, start.value + |RESULTS|, end.value))
  }

  // ----- No occurrence straddles a boundary -----

  lemma Mismatch(s: string, m: string, k: nat, i: nat)
    requires i < |m| && k + i < |s| && s[k + i] != m[i]
    ensures !OccursAt(s, m, k)
  {
    assert k + |m| <= |s| ==> s[k..k + |m|][i] == s[k + i];
  }

  lemma Within(s: string, part: string, m: string, k: nat, from: nat)
    requires from <= k && k + |m| <= from + |part| <= |s| && s[from..from + |part|] == part
    ensures OccursAt(s, m, k) <==> OccursAt(part, m, k - from)
  {
    assert forall i :: 0 <= i < |part| ==> s[from + i] == part[i];
    assert s[k..k + |m|] == part[k - from..k - from + |m|];
  }

  lemma CharOf(s: string, part: string, from: nat, j: nat)
    requires from + |part| <= |s| && s[from..from + |part|] == part && j < |part|
    ensures s[from + j] == part[j]
  {
    assert s[from..from + |part|][j] == s[from + j];
  }

  lemma PrintedParts(before: string, payload: string, after: string)
    ensures var (s, n) := (Printed(before, payload, after), |before|);
            && |s| == n + 13 + |payload| + 9 + |after|
            && s[..n] == before && s[n..n + 13] == RESULTS
            && s[n + 13..n + 13 + |payload|] == payload
            && s[n + 13 + |payload|..n + 22 + |payload|] == END
  {
  }

  /** The start marker is not reached into from what precedes it: no beginning of it is an end of it. */
  lemma StartOccurrences(before: string, payload: string, after: string, k: nat)
    requires k <= |before|
    ensures OccursAt(Printed(before, payload, after), RESULTS, k) <==> k == |before| || OccursAt(before, RESULTS, k)
  {
    var s, n := Printed(before, payload, after), |before|;
    PrintedParts(before, payload, after);
    hide Printed;
    if k + 13 <= n {
      Within(s, before, RESULTS, k, 0);
    } else if k < n {
      var i := if n - k <= 2 then 10 else 12;
      CharOf(s, RESULTS, n, k + i - n);
      Mismatch(s, RESULTS, k, i);
    }
  }

  /** An end marker begins in the text before, in the payload, or is the one printed last. */
  lemma EndOccurrences(before: string, payload: string, after: string, k: nat)
    requires k <= |before| + 13 + |payload|
    ensures OccursAt(Printed(before, payload, after), END, k) <==>
            || k == |before| + 13 + |payload|
            || OccursAt(before, END, k)
            || (k >= |before| + 13 && OccursAt(payload, END, k - |before| - 13))
  {
    var s, n, e := Printed(before, payload, after), |before|, |before| + 13 + |payload|;
    PrintedParts(before, payload, after);
    hide Printed;
    if k + 9 > n {
      assert !OccursAt(before, END, k);
    }
    if k + 9 <= n {
      Within(s, before, END, k, 0);
    } else if k < n {
      CharOf(s, RESULTS, n, k + 8 - n);
      Mismatch(s, END, k, 8);
    } else if k < n + 13 {
      var i := if k - n <= 2 then 3 - (k - n) else 0;
      CharOf(s, RESULTS, n, k + i - n);
      Mismatch(s, END, k, i);
    } else if k + 9 <= e {
      Within(s, payload, END, k, n + 13);
    } else if k < e {
      var i := if e - k <= 2 then 6 else 8;
      CharOf(s, END, e, k + i - e);
      Mismatch(s, END, k, i);
    }
  }

  // ----- What the parser makes of it -----

  /** Where the payload is cut: at an end marker of its own, if it has one. */
  function Cut(payload: string): (c: nat)
    ensures c <= |payload|
    ensures c == |payload| <==> !Occurs(payload, END)
  {
    match Find(payload, END)
    case Some(k) => assert OccursAt(payload, END, k); k
    case None => |payload|
  }

  lemma CutIsFirst(payload: string)
    ensures Cut(payload) < |payload| ==> OccursAt(payload, END, Cut(payload))
    ensures forall k: nat :: k < Cut(payload) ==> !OccursAt(payload, END, k)
  {
    hide Find;
  }

  lemma FirstIs(s: string, m: string, k: nat)
    requires FirstAt(s, m, k)
    ensures Find(s, m) == Some(k)
  {
    hide Find, OccursAt;
  }

  lemma EndFound(before: string, payload: string, after: string)
    requires !Occurs(before, END)
    ensures Find(Printed(before, payload, after), END) == Some(|before| + 13 + Cut(payload))
  {
    hide Find, Printed, OccursAt;
    var s, c := Printed(before, payload, after), Cut(payload);
    CutIsFirst(payload);
    EndOccurrences(before, payload, after, |before| + 13 + c);
    forall j: nat | j < |before| + 13 + c ensures !OccursAt(s, END, j) {
      EndOccurrences(before, payload, after, j);
    }
    FirstIs(s, END, |before| + 13 + c);
  }

  lemma {:induction false} StartFound(before: string, payload: string, after: string)
    ensures Find(Printed(before, payload, after), RESULTS) ==
            if Occurs(before, RESULTS) then Find(before, RESULTS) else Some(|before|)
  {
    var s := Printed(before, payload, after);
    var k := if Occurs(before, RESULTS) then Find(before, RESULTS).value else |before|;
    StartOccurrences(before, payload, after, k);
    forall j: nat | j < k ensures !OccursAt(s, RESULTS, j) {
      StartOccurrences(before, payload, after, j);
    }
    FirstIs(s, RESULTS, k);
  }

  predicate FirstAt(s: string, m: string, k: nat) {
    OccursAt(s, m, k) && forall j: nat :: j < k ==> !OccursAt(s, m, j)
  }

  /**
   On every text: parsing fails exactly when a marker is missing or an end marker stands before any start
   marker; otherwise it gives what lies between the first of each.
   */
  lemma ParseMeaning(s: string, i: nat, j: nat)
    ensures Parse(s).Err? <==>
            || !Occurs(s, RESULTS) || !Occurs(s, END)
            || exists k: nat :: OccursAt(s, END, k) && forall l: nat :: l <= k ==> !OccursAt(s, RESULTS, l)
    ensures FirstAt(s, RESULTS, i) && FirstAt(s, END, j) && i <= j ==>
              Parse(s) == Ok(if i + |RESULTS| <= j then s[i + |RESULTS|..j] else "")
  {
    var start, end := Find(s, RESULTS), Find(s, END);
    hide Find;
    if FirstAt(s, RESULTS, i) && FirstAt(s, END, j) {
      FirstIs(s, RESULTS, i);
      FirstIs(s, END, j);
    }
    if start.Some? && end.Some? {
      assert OccursAt(s, RESULTS, start.value) && OccursAt(s, END, end.value);
    }
    hide OccursAt;
  }

  /** With no marker before it, a payload is recovered up to its first end marker. */
  lemma ParseRecovers(before: string, payload: string, after: string)
    requires !Occurs(before, END) && !Occurs(before, RESULTS)
    ensures Parse(Printed(before, payload, after)) == Ok(payload[..Cut(payload)])
  {
    hide Find, OccursAt;
    var s, n := Printed(before, payload, after), |before|;
    EndFound(before, payload, after);
    StartFound(before, payload, after);
    ParseAt(s, n, n + 13 + Cut(payload));
    PrintedParts(before, payload, after);
    hide Printed, Cut, Occurs, Parse;
    Prefix(s, payload, n + 13, Cut(payload));
  }

  lemma ParseAt(s: string, start: nat, end: nat)
    requires Find(s, RESULTS) == Some(start) && Find(s, END) == Some(end) && start + 13 <= end
    ensures end <= |s| && Parse(s) == Ok(s[start + 13..end])
  {
    hide Find;
    assert OccursAt(s, END, end);
  }

  lemma Prefix(s: string, part: string, from: nat, c: nat)
    requires from + |part| <= |s| && s[from..from + |part|] == part && c <= |part|
    ensures s[from..from + c] == part[..c]
  {
    assert s[from..from + c] == s[from..from + |part|][..c];
  }

  /** The text taken never contains an end marker. */
  lemma ParsedHasNoEnd(stdout: string)
    requires Parse(stdout).Ok?
    ensures !Occurs(Parse(stdout).value, END)
  {
    var start, end := Find(stdout, RESULTS).value + 13, Find(stdout, END).value;
    if start <= end {
      forall k: nat ensures !OccursAt(stdout[start..end], END, k) {
        if OccursAt(stdout[start..end], END, k) {
          Within(stdout, stdout[start..end], END, start + k, start);
        }
      }
    } else {
      assert !Occurs("", END);
    }
    hide Find;
  }

  lemma CleanRoundTrip(before: string, payload: string, after: string)
    requires !Occurs(before, END)
    ensures Parse(Printed(before, payload, after)) == Ok(payload) <==>
            !Occurs(before, RESULTS) && !Occurs(payload, END)
  {
    hide Find;
    var s := Printed(before, payload, after);
    if !Occurs(before, RESULTS) {
      ParseRecovers(before, payload, after);
      assert payload[..|payload|] == payload;
      hide Parse, Printed, Occurs;
    } else {
      EndFound(before, payload, after);
      StartFound(before, payload, after);
      PrintedParts(before, payload, after);
      if !Occurs(payload, END) {
        // what is parsed starts before the payload does, and ends with it
        assert |Parse(s).value| > |payload|;
      } else if Parse(s) == Ok(payload) {
        ParsedHasNoEnd(s);
      }
      hide Find, Printed, Cut;
    }
  }

  /** After a stray end marker nothing printed later is looked at. */
  lemma StrayEndWins(before: string, payload: string, after: string)
    requires Occurs(before, END)
    ensures Parse(Printed(before, payload, after)) == Parse(before)
  {
    hide Find;
    var s, k := Printed(before, payload, after), Find(before, END).value;
    StrayEnd(before, payload, after);
    StartFound(before, payload, after);
    PrintedParts(before, payload, after);
    hide Printed;
    assert k < |before|;
    if Occurs(before, RESULTS) {
      var start := Find(before, RESULTS).value;
      assert before[..|before|] == before;
      SameSlice(s, before, |before|, start + 13, k);
    }
    hide Occurs;
  }

  /**
   The payload printed is the payload parsed exactly when neither marker comes before it and it
   contains no end marker (it may contain the start marker), or, after a stray end marker, when the
   text before happens to hold that payload already.
   */
  lemma RoundTrip(before: string, payload: string, after: string)
    ensures Parse(Printed(before, payload, after)) == Ok(payload) <==>
            if Occurs(before, END) then Parse(before) == Ok(payload)
            else !Occurs(before, RESULTS) && !Occurs(payload, END)
  {
    if Occurs(before, END) {
      StrayEndWins(before, payload, after);
    } else {
      CleanRoundTrip(before, payload, after);
    }
    hide Parse, Printed, Occurs;
  }

  lemma SameSlice(s: string, s': string, n: nat, from: nat, to: nat)
    requires n <= |s| && n <= |s'| && s[..n] == s'[..n] && to <= n
    ensures Slice(s, from, to) == Slice(s', from, to)
  {
    if from <= to {
      assert s[from..to] == s[..n][from..to] && s'[from..to] == s'[..n][from..to];
    }
  }

  lemma StrayEnd(before: string, payload: string, after: string)
    requires Occurs(before, END)
    ensures Find(Printed(before, payload, after), END) == Find(before, END)
  {
    var s, k := Printed(before, payload, after), Find(before, END).value;
    EndOccurrences(before, payload, after, k);
    forall j: nat | j < k ensures !OccursAt(s, END, j) {
      EndOccurrences(before, payload, after, j);
    }
    FirstIs(s, END, k);
  }

  /** JSON does not escape the marker, so a result that quotes it is cut short. */
  lemma QuotedMarkerIsCut()
    ensures Parse(Printed("", "[\">>>END<<<\"]", "\n")) == Ok("[\"")
  {
    hide Find, Parse;
    var payload := "[\">>>END<<<\"]";
    assert OccursAt(payload, END, 2) by {
      assert payload[2..11] == END;
    }
    assert !OccursAt(payload, END, 0) by {
      assert payload[0..9][0] != END[0];
    }
    assert !OccursAt(payload, END, 1) by {
      assert payload[1..10][0] != END[0];
    }
    FirstIs(payload, END, 2);
    ParseRecovers("", payload, "\n");
    assert payload[..2] == "[\"";
  }
}
