/** ASCII letter case. */
module Ascii {
  predicate IsLower(c: char) { 'a' <= c <= 'z' }

  predicate IsUpper(c: char) { 'A' <= c <= 'Z' }

  predicate IsDigit(c: char) { '0' <= c <= '9' }

  predicate LowerOrDigit(c: char) { IsLower(c) || IsDigit(c) }

  function Upper(c: char): (u: char)
    ensures !IsLower(u) && (IsUpper(u) <==> IsLower(c) || IsUpper(c))
  {
    if IsLower(c) then (c as int - 32) as char else c
  }

  function Lower(c: char): (l: char)
    ensures !IsUpper(l) && (IsLower(l) <==> IsLower(c) || IsUpper(c))
    ensures IsLower(c) ==> Lower(Upper(c)) == c
  {
    if IsUpper(c) then (c as int + 32) as char else c
  }

  ghost predicate NoUpper(s: string) {
    forall i :: 0 <= i < |s| ==> !IsUpper(s[i])
  }
}

/**
 The two halves of the Python binding's key spelling: `snake_to_camel` (`python/src/json.rs`) on the
 way in, `_camel_to_snake` (`python/cognee_py/compat.py`) on the way out. Keys are ASCII.
 */
module KeySpelling {
  import opened Wrappers
  import opened Ascii
  import opened OrderedMap

  // ----- snake_case to camelCase -----

  function CamelFrom(s: string, capitalise: bool): string {
    if s == "" then ""
    else if s[0] == '_' then CamelFrom(s[1..], true)
    else [if capitalise then Upper(s[0]) else s[0]] + CamelFrom(s[1..], false)
  }

  function SnakeToCamel(s: string): string {
    if s != "" && s[0] == '_' then s else CamelFrom(s, false)
  }

  /** The source's loop over the characters. */
  method ConvertSnakeToCamel(s: string) returns (out: string)
    ensures out == SnakeToCamel(s)
  {
    if |s| > 0 && s[0] == '_' {
      return s;
    }
    out := "";
    var capitaliseNext := false;
    assert s[0..] == s;
    for i := 0 to |s|
      invariant CamelFrom(s, false) == out + CamelFrom(s[i..], capitaliseNext)
    {
      CamelNext(s, i, capitaliseNext, out);
      hide CamelFrom;
      if s[i] == '_' {
        capitaliseNext := true;
      } else if capitaliseNext {
        out := out + [Upper(s[i])];
        capitaliseNext := false;
      } else {
        out := out + [s[i]];
      }
    }
  }

  lemma CamelNext(s: string, i: nat, capitalise: bool, out: string)
    requires i < |s|
    ensures out + CamelFrom(s[i..], capitalise) ==
            if s[i] == '_' then out + CamelFrom(s[i + 1..], true)
            else out + [if capitalise then Upper(s[i]) else s[i]] + CamelFrom(s[i + 1..], false)
  {
    assert s[i..][0] == s[i] && s[i..][1..] == s[i + 1..];
  }

  // ----- camelCase to snake_case -----

  /** Whether the pattern matches the empty string before `s`, after the character `before`. */
  predicate BreakBefore(before: Option<char>, s: string)
    requires s != ""
  {
    && before.Some? && IsUpper(s[0])
    && (LowerOrDigit(before.value) || (IsUpper(before.value) && |s| > 1 && IsLower(s[1])))
  }

  function SnakeFrom(before: Option<char>, s: string): string
    decreases |s|
  {
    if s == "" then ""
    else (if BreakBefore(before, s) then "_" else "") + [Lower(s[0])] + SnakeFrom(Some(s[0]), s[1..])
  }

  function CamelToSnake(name: string): string {
    SnakeFrom(None, name)
  }

  // ----- When one undoes the other -----

  /**
   An underscore that the way back restores: the next word starts with a letter, and the word before
   ends in a letter or digit that stays as it is, or is one capitalised letter, in which case the
   second character of the next word has to be a letter as well.
   */
  predicate Restored(k: string, i: nat)
    requires i < |k|
  {
    && i + 1 < |k| && IsLower(k[i + 1])
    && if i >= 2 && k[i - 2] == '_' && IsLower(k[i - 1]) then i + 2 < |k| && IsLower(k[i + 2])
       else i >= 1 && LowerOrDigit(k[i - 1])
  }

  ghost predicate Reversible(k: string) {
    && NoUpper(k)
    && (k != "" && k[0] != '_' ==> forall i :: 0 <= i < |k| && k[i] == '_' ==> Restored(k, i))
  }

  /** `Reversible` along the scan: what is left of the key, and the last character written. */
  ghost predicate ReversibleFrom(before: Option<char>, s: string, capitalise: bool)
    decreases |s|
  {
    if s == "" then !capitalise
    else if s[0] == '_' then !capitalise && ReversibleFrom(before, s[1..], true)
    else
      var c := if capitalise then Upper(s[0]) else s[0];
      && (capitalise ==> BreakBefore(before, [c] + CamelFrom(s[1..], false)))
      && ReversibleFrom(Some(c), s[1..], false)
  }

  /** The part of the key the scan has yet to give back: what is left, and a pending underscore. */
  function Pending(s: string, capitalise: bool): string {
    (if capitalise then "_" else "") + s
  }

  /** What the way back has made of the rest of the key: all of it if `ok`, else something shorter. */
  ghost predicate GivesBack(back: string, s: string, capitalise: bool, ok: bool) {
    && (ok ==> back == Pending(s, capitalise))
    && (!ok ==> |back| < |Pending(s, capitalise)|)
  }

  lemma GivesBackUnderscore(back: string, s: string, capitalise: bool, ok: bool)
    requires s != "" && s[0] == '_' && GivesBack(back, s[1..], true, ok)
    ensures GivesBack(back, s, capitalise, !capitalise && ok)
  {
    assert s == "_" + s[1..];
  }

  lemma GivesBackLetter(back: string, s: string, capitalise: bool, broken: bool, ok: bool)
    requires s != "" && GivesBack(back, s[1..], false, ok) && (broken ==> capitalise)
    ensures GivesBack((if broken then "_" else "") + [s[0]] + back, s, capitalise, (capitalise ==> broken) && ok)
  {
    assert s == [s[0]] + s[1..];
    assert Pending(s[1..], false) == s[1..];
    if broken == capitalise && ok {
      assert (if broken then "_" else "") + [s[0]] + back == (if capitalise then "_" else "") + s;
    }
  }

  lemma SnakeStep(before: Option<char>, c: char, rest: string)
    ensures SnakeFrom(before, [c] + rest) ==
            (if BreakBefore(before, [c] + rest) then "_" else "") + [Lower(c)] + SnakeFrom(Some(c), rest)
  {
    assert ([c] + rest)[1..] == rest;
  }

  lemma {:induction false} ScanRoundTrip(before: Option<char>, s: string, capitalise: bool)
    requires NoUpper(s)
    ensures GivesBack(SnakeFrom(before, CamelFrom(s, capitalise)), s, capitalise,
                      ReversibleFrom(before, s, capitalise))
    decreases |s|
  {
    if s == "" {
    } else if s[0] == '_' {
      ScanRoundTrip(before, s[1..], true);
      GivesBackUnderscore(SnakeFrom(before, CamelFrom(s[1..], true)), s, capitalise,
                          ReversibleFrom(before, s[1..], true));
    } else {
      var c := if capitalise then Upper(s[0]) else s[0];
      var rest := CamelFrom(s[1..], false);
      ScanRoundTrip(Some(c), s[1..], false);
      SnakeStep(before, c, rest);
      GivesBackLetter(SnakeFrom(Some(c), rest), s, capitalise, BreakBefore(before, [c] + rest),
                      ReversibleFrom(Some(c), s[1..], false));
      hide GivesBack, SnakeFrom;
    }
  }

  function OutAt(k: string, j: nat): char
    requires j < |k|
  {
    if j >= 1 && k[j - 1] == '_' then Upper(k[j]) else k[j]
  }

  /** The scan position `j` of a key: a pending capital, and the last character written. */
  predicate CapitaliseAt(k: string, j: nat)
    requires j <= |k|
  {
    j >= 1 && k[j - 1] == '_'
  }

  function BeforeAt(k: string, j: nat): Option<char>
    requires j <= |k| && (CapitaliseAt(k, j) ==> j >= 2)
  {
    if j == 0 then None else if CapitaliseAt(k, j) then Some(OutAt(k, j - 2)) else Some(OutAt(k, j - 1))
  }

  lemma CamelHead(s: string)
    requires s != ""
    ensures CamelFrom(s, false) != "" ==> (IsLower(CamelFrom(s, false)[0]) <==> IsLower(s[0]))
    ensures IsLower(s[0]) ==> CamelFrom(s, false) != ""
  {
    if s[0] == '_' {
      CapitalHead(s[1..]);
    }
  }

  lemma {:induction false} CapitalHead(s: string)
    ensures CamelFrom(s, true) != "" ==> !IsLower(CamelFrom(s, true)[0])
  {
    if s != "" && s[0] == '_' {
      CapitalHead(s[1..]);
    }
  }

  /** The break the scan needs at a capital is the one `Restored` describes. */
  lemma BreakIsRestored(k: string, j: nat)
    requires NoUpper(k) && 2 <= j < |k| && k[j - 1] == '_' && k[j - 2] != '_' && k[j] != '_'
    ensures BreakBefore(BeforeAt(k, j), [OutAt(k, j)] + CamelFrom(k[j + 1..], false)) <==> Restored(k, j - 1)
  {
    var rest := CamelFrom(k[j + 1..], false);
    assert ([OutAt(k, j)] + rest)[0] == OutAt(k, j);
    if j + 1 < |k| {
      CamelHead(k[j + 1..]);
    }
    assert rest != "" ==> ([OutAt(k, j)] + rest)[1] == rest[0];
  }

  lemma {:induction false} ScanReversible(k: string, j: nat)
    requires NoUpper(k) && k != "" && k[0] != '_' && j <= |k|
    requires CapitaliseAt(k, j) ==> j >= 2 && k[j - 2] != '_'
    ensures ReversibleFrom(BeforeAt(k, j), k[j..], CapitaliseAt(k, j)) <==>
            forall i :: j - (if CapitaliseAt(k, j) then 1 else 0) <= i < |k| && k[i] == '_' ==> Restored(k, i)
    decreases |k| - j
  {
    if j == |k| {
      if CapitaliseAt(k, j) {
        assert !Restored(k, j - 1);
      }
    } else {
      assert k[j..][0] == k[j] && k[j..][1..] == k[j + 1..];
      if k[j] == '_' && CapitaliseAt(k, j) {
        assert !Restored(k, j - 1);
      } else {
        ScanReversible(k, j + 1);
        if k[j] != '_' && CapitaliseAt(k, j) {
          BreakIsRestored(k, j);
        }
      }
    }
  }

  lemma {:induction false} SnakeOfUncapitalised(before: Option<char>, s: string)
    requires NoUpper(s)
    ensures SnakeFrom(before, s) == s
    decreases |s|
  {
    if s != "" {
      SnakeOfUncapitalised(Some(s[0]), s[1..]);
    }
  }

  lemma {:induction false} SnakeHasNoUpper(before: Option<char>, s: string)
    ensures NoUpper(SnakeFrom(before, s))
    decreases |s|
  {
    if s != "" {
      SnakeHasNoUpper(Some(s[0]), s[1..]);
    }
  }

  /** Over every key, the two conversions cancel exactly on the reversible ones. */
  lemma KeyRoundTrip(k: string)
    ensures CamelToSnake(SnakeToCamel(k)) == k <==> Reversible(k)
  {
    SnakeHasNoUpper(None, SnakeToCamel(k));
    if NoUpper(k) {
      if k != "" && k[0] == '_' {
        SnakeOfUncapitalised(None, k);
      } else {
        ScanRoundTrip(None, k, false);
        assert Pending(k, false) == k;
        if k != "" {
          ScanReversible(k, 0);
          assert k[0..] == k;
        }
      }
    }
  }

  /** One-letter words run together on the way back. */
  lemma OneLetterWordIsLost()
    ensures CamelToSnake(SnakeToCamel("x_y_z")) != "x_y_z"
  {
    var k := "x_y_z";
    assert k[3] == '_' && !Restored(k, 3);
    KeyRoundTrip(k);
  }

  // ----- Whole maps -----

  function MapKeys<V>(m: Entries<string, V>, f: string -> string): (pairs: Entries<string, V>)
    ensures |pairs| == |m| && forall i :: 0 <= i < |m| ==> pairs[i] == (f(m[i].0), m[i].1)
  {
    seq(|m|, i requires 0 <= i < |m| => (f(m[i].0), m[i].1))
  }

  function CamelKeys<V>(m: Entries<string, V>): Entries<string, V> {
    InsertAll([], MapKeys(m, SnakeToCamel))
  }

  /** `_rekey` of a dict: a comprehension, so a repeated key keeps its place and takes the later value. */
  function SnakeKeys<V>(m: Entries<string, V>): Entries<string, V> {
    InsertAll([], MapKeys(m, CamelToSnake))
  }

  class JsonObject<V> {
    var entries: Entries<string, V>

    constructor (entries: Entries<string, V>)
      ensures this.entries == entries
    {
      this.entries := entries;
    }

    /** `snake_to_camel_keys`: collects the renamed pairs, clears the object and refills it. */
    method SnakeToCamelKeys()
      modifies this
      ensures entries == CamelKeys(old(entries))
    {
      var pairs: Entries<string, V> := [];
      for i := 0 to |entries|
        invariant entries == old(entries)
        invariant pairs == MapKeys(entries, SnakeToCamel)[..i]
      {
        var key := ConvertSnakeToCamel(entries[i].0);
        pairs := pairs + [(key, entries[i].1)];
      }
      assert pairs == MapKeys(old(entries), SnakeToCamel);
      entries := [];
      assert pairs[0..] == pairs;
      for i := 0 to |pairs|
        invariant InsertAll([], pairs) == InsertAll(entries, pairs[i..])
      {
        assert pairs[i..][0] == pairs[i] && pairs[i..][1..] == pairs[i + 1..];
        entries := Insert(entries, pairs[i].0, pairs[i].1);
      }
      assert pairs[|pairs|..] == [];
    }
  }

  /**
   The renamed keys are exactly the translations, in order of first occurrence; each has the value of
   the last entry translated to it; and no entry is lost exactly when no two translations collide.
   */
  lemma CamelKeysMeaning<V(!new)>(m: Entries<string, V>)
    ensures var pairs := MapKeys(m, SnakeToCamel);
            && Keys(CamelKeys(m)) == FirstSeen(Keys(pairs))
            && (forall e :: e in CamelKeys(m) ==> LastBinding(pairs, e.0) == Some(e.1))
            && (|CamelKeys(m)| == |m| <==> Distinct(Keys(pairs)))
  {
    InsertAllMeaning(MapKeys(m, SnakeToCamel));
    InsertAllConserves(MapKeys(m, SnakeToCamel));
  }

  lemma {:induction false} CamelHasNoUnderscore(s: string, capitalise: bool)
    ensures forall c :: c in CamelFrom(s, capitalise) ==> c != '_'
  {
    if s != "" {
      CamelHasNoUnderscore(s[1..], s[0] == '_');
    }
  }

  lemma {:induction false} CamelOfPlain(s: string)
    requires forall c :: c in s ==> c != '_'
    ensures CamelFrom(s, false) == s
  {
    if s != "" {
      assert s[0] in s && forall c :: c in s[1..] ==> c in s;
      CamelOfPlain(s[1..]);
    }
  }

  lemma SnakeToCamelIdempotent(s: string)
    ensures SnakeToCamel(SnakeToCamel(s)) == SnakeToCamel(s)
  {
    if s == "" || s[0] != '_' {
      CamelHasNoUnderscore(s, false);
      CamelOfPlain(SnakeToCamel(s));
      assert SnakeToCamel(s) != "" ==> SnakeToCamel(s)[0] in SnakeToCamel(s);
    }
  }

  lemma CamelKeysIdempotent<V(!new)>(m: Entries<string, V>)
    ensures CamelKeys(CamelKeys(m)) == CamelKeys(m)
  {
    var once := CamelKeys(m);
    CamelKeysMeaning(m);
    FirstSeenKeys(Keys(MapKeys(m, SnakeToCamel)));
    forall i | 0 <= i < |once| ensures SnakeToCamel(once[i].0) == once[i].0 {
      assert Keys(once)[i] in Keys(MapKeys(m, SnakeToCamel));
      var j :| 0 <= j < |m| && SnakeToCamel(m[j].0) == once[i].0;
      SnakeToCamelIdempotent(m[j].0);
    }
    assert MapKeys(once, SnakeToCamel) == once;
    InsertAllConserves(once);
  }

  /** A whole dict comes back unchanged, entry for entry, exactly when each of its keys does. */
  lemma DictRoundTrip<V(!new)>(m: Entries<string, V>)
    requires Distinct(Keys(m))
    ensures SnakeKeys(CamelKeys(m)) == m <==> forall k :: k in Keys(m) ==> Reversible(k)
  {
    var camel := MapKeys(m, SnakeToCamel);
    forall k ensures CamelToSnake(SnakeToCamel(k)) == k <==> Reversible(k) {
      KeyRoundTrip(k);
    }
    if SnakeKeys(CamelKeys(m)) == m || forall k :: k in Keys(m) ==> Reversible(k) {
      DictKeysStayApart(m);
      InsertAllConserves(camel);
      var snake := MapKeys(camel, CamelToSnake);
      if SnakeKeys(camel) == m {
        InsertAllConserves(snake);
        assert snake == m;
        forall i | 0 <= i < |m| ensures Reversible(m[i].0) {
          assert snake[i] == m[i];
        }
      } else {
        forall i | 0 <= i < |m| ensures snake[i] == m[i] {
          assert m[i].0 == Keys(m)[i];
        }
        assert snake == m;
        InsertAllConserves(snake);
      }
    }
  }

  lemma DictKeysStayApart<V(!new)>(m: Entries<string, V>)
    requires Distinct(Keys(m))
    requires SnakeKeys(CamelKeys(m)) == m || forall k :: k in Keys(m) ==> CamelToSnake(SnakeToCamel(k)) == k
    ensures Distinct(Keys(MapKeys(m, SnakeToCamel)))
  {
    var camel := MapKeys(m, SnakeToCamel);
    if forall k :: k in Keys(m) ==> CamelToSnake(SnakeToCamel(k)) == k {
      forall i, j | 0 <= i < j < |m| ensures Keys(camel)[i] != Keys(camel)[j] {
        assert Keys(m)[i] != Keys(m)[j];
      }
    } else {
      InsertAllMeaning(camel);
      FirstSeenKeys(Keys(camel));
      InsertAllMeaning(MapKeys(CamelKeys(m), CamelToSnake));
      FirstSeenKeys(Keys(MapKeys(CamelKeys(m), CamelToSnake)));
      assert |m| == |Keys(m)| <= |CamelKeys(m)| == |Keys(CamelKeys(m))| <= |camel|;
    }
  }
}
