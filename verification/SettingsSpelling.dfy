/**
 The TypeScript binding's settings spelling (`ts/src/cognee.ts`): `config.get()` shows a snapshot
 under camelCase names, and the constructor takes such an object back. Keys are ASCII.
 */
module SettingsSpelling {
  import opened Ascii
  import opened OrderedMap
  import KeySpelling
  import Wrappers

  predicate IsSeparator(c: char) { c == '_' || c == '.' }

  /** The pattern `[_.]([a-z0-9])` matches at the front. */
  predicate Matches(s: string) { |s| >= 2 && IsSeparator(s[0]) && LowerOrDigit(s[1]) }

  function SnakeToCamel(s: string): string {
    if s == "" then ""
    else if Matches(s) then [Upper(s[1])] + SnakeToCamel(s[2..])
    else [s[0]] + SnakeToCamel(s[1..])
  }

  function CamelToSnake(s: string): string {
    if s == "" then ""
    else (if IsUpper(s[0]) then ['_', Lower(s[0])] else [s[0]]) + CamelToSnake(s[1..])
  }

  // ----- There and back for one key -----

  /** What a key turns into: a separator before a letter becomes `_`, one before a digit vanishes. */
  function Respelled(s: string): string {
    if s == "" then ""
    else if Matches(s) then (if IsLower(s[1]) then ['_', s[1]] else [s[1]]) + Respelled(s[2..])
    else [s[0]] + Respelled(s[1..])
  }

  lemma {:induction false} BackIsRespelled(s: string)
    requires NoUpper(s)
    ensures CamelToSnake(SnakeToCamel(s)) == Respelled(s)
    decreases |s|
  {
    if s == "" {
    } else if Matches(s) {
      BackIsRespelled(s[2..]);
      var c := Upper(s[1]);
      assert ([c] + SnakeToCamel(s[2..]))[1..] == SnakeToCamel(s[2..]);
    } else {
      BackIsRespelled(s[1..]);
      assert ([s[0]] + SnakeToCamel(s[1..]))[1..] == SnakeToCamel(s[1..]);
    }
  }

  /** A key comes back as it was exactly when no dot stands before a letter and no separator before a digit. */
  lemma {:induction false} KeyRoundTrip(s: string)
    requires NoUpper(s)
    ensures CamelToSnake(SnakeToCamel(s)) == s <==> forall i :: 0 <= i < |s| ==> Kept(s, i)
  {
    BackIsRespelled(s);
    RespelledFixed(s);
  }

  /** The character at `i` comes back: it is not a separator that would vanish or be replaced. */
  predicate Kept(s: string, i: nat)
    requires i < |s|
  {
    i + 1 < |s| && IsSeparator(s[i]) ==> !IsDigit(s[i + 1]) && (IsLower(s[i + 1]) ==> s[i] == '_')
  }

  lemma KeptStep(s: string)
    requires s != ""
    ensures (forall i :: 0 <= i < |s| ==> Kept(s, i)) <==>
            Kept(s, 0) && forall i :: 0 <= i < |s[1..]| ==> Kept(s[1..], i)
  {
    assert forall i :: 1 <= i < |s| ==> (Kept(s, i) <==> Kept(s[1..], i - 1));
    assert forall i :: 0 <= i < |s[1..]| ==> (Kept(s[1..], i) <==> Kept(s, i + 1));
  }

  lemma {:induction false} RespelledFixed(s: string)
    ensures |Respelled(s)| <= |s|
    ensures Respelled(s) == s <==> forall i :: 0 <= i < |s| ==> Kept(s, i)
    decreases |s|
  {
    if s != "" {
      KeptStep(s);
      if Matches(s) {
        KeptStep(s[1..]);
        RespelledFixed(s[2..]);
        assert s[1..][1..] == s[2..];
        assert s == [s[0], s[1]] + s[2..];
        assert IsDigit(s[1]) ==> |Respelled(s)| < |s|;
        assert IsLower(s[1]) ==> Respelled(s)[0] == '_' && Respelled(s)[2..] == Respelled(s[2..]);
        hide Respelled;
      } else {
        RespelledFixed(s[1..]);
        assert s == [s[0]] + s[1..];
        assert Respelled(s)[0] == s[0] && Respelled(s)[1..] == Respelled(s[1..]);
        hide Respelled;
      }
    }
  }

  /** Two separators and a digit: the pass leaves a separator before a digit, which the next pass removes. */
  predicate DoubledBeforeDigit(s: string, i: nat)
    requires i < |s|
  {
    i + 2 < |s| && IsSeparator(s[i]) && IsSeparator(s[i + 1]) && IsDigit(s[i + 2])
  }

  lemma DoubledStep(s: string)
    requires s != ""
    ensures (forall i :: 0 <= i < |s| ==> !DoubledBeforeDigit(s, i)) <==>
            !DoubledBeforeDigit(s, 0) && forall i :: 0 <= i < |s[1..]| ==> !DoubledBeforeDigit(s[1..], i)
  {
    assert forall i :: 1 <= i < |s| ==> (DoubledBeforeDigit(s, i) <==> DoubledBeforeDigit(s[1..], i - 1));
    assert forall i :: 0 <= i < |s[1..]| ==> (DoubledBeforeDigit(s[1..], i) <==> DoubledBeforeDigit(s, i + 1));
  }

  lemma {:induction false} CamelStep(c: char, rest: string)
    ensures !Matches([c] + rest) ==> SnakeToCamel([c] + rest) == [c] + SnakeToCamel(rest)
    ensures Matches([c] + rest) ==> SnakeToCamel([c] + rest) == [Upper(rest[0])] + SnakeToCamel(rest[1..])
  {
    assert ([c] + rest)[1..] == rest;
    assert rest != "" ==> ([c] + rest)[2..] == rest[1..];
  }

  /** The respelled rest shows a digit first only after a separator that vanished, or a digit already first. */
  lemma RespelledHead(s: string)
    requires s != "" && !LowerOrDigit(s[0])
    ensures Respelled(s) != ""
    ensures LowerOrDigit(Respelled(s)[0]) <==> Matches(s) && IsDigit(s[1])
  {
  }

  lemma RespelledMatch(s: string)
    requires NoUpper(s) && Matches(s)
    ensures SnakeToCamel(Respelled(s)) == [Upper(s[1])] + SnakeToCamel(Respelled(s[2..]))
  {
    var rest := Respelled(s[2..]);
    if IsLower(s[1]) {
      assert Respelled(s) == ['_'] + ([s[1]] + rest);
      CamelStep('_', [s[1]] + rest);
      assert ([s[1]] + rest)[1..] == rest;
    } else {
      CamelStep(s[1], rest);
    }
  }

  lemma RespelledPlain(s: string)
    requires NoUpper(s) && s != "" && !Matches(s)
    ensures SnakeToCamel(Respelled(s)) ==
            (if DoubledBeforeDigit(s, 0) then "" else [s[0]]) + SnakeToCamel(Respelled(s[1..]))
  {
    var rest := Respelled(s[1..]);
    CamelStep(s[0], rest);
    if |s| > 1 && IsSeparator(s[0]) {
      RespelledHead(s[1..]);
      assert Matches([s[0]] + rest) <==> DoubledBeforeDigit(s, 0);
      if DoubledBeforeDigit(s, 0) {
        CamelStep(rest[0], rest[1..]);
        assert rest == [rest[0]] + rest[1..];
      }
    }
  }

  /** Reading a respelled key back shows the same camelCase name, unless a doubled separator stands before a digit. */
  lemma {:induction false} NameIsStable(s: string)
    requires NoUpper(s)
    ensures |SnakeToCamel(Respelled(s))| <= |SnakeToCamel(s)|
    ensures SnakeToCamel(Respelled(s)) == SnakeToCamel(s) <==>
            forall i :: 0 <= i < |s| ==> !DoubledBeforeDigit(s, i)
    decreases |s|
  {
    if s != "" {
      DoubledStep(s);
      if Matches(s) {
        DoubledStep(s[1..]);
        assert s[1..][1..] == s[2..];
        NameIsStable(s[2..]);
        RespelledMatch(s);
        assert SnakeToCamel(s) == [Upper(s[1])] + SnakeToCamel(s[2..]);
        SameHead(Upper(s[1]), SnakeToCamel(Respelled(s[2..])), SnakeToCamel(s[2..]));
      } else {
        NameIsStable(s[1..]);
        RespelledPlain(s);
        assert SnakeToCamel(s) == [s[0]] + SnakeToCamel(s[1..]);
        SameHead(s[0], SnakeToCamel(Respelled(s[1..])), SnakeToCamel(s[1..]));
      }
      hide SnakeToCamel, Respelled;
    }
  }

  lemma SameHead(c: char, s: string, t: string)
    ensures [c] + s == [c] + t <==> s == t
  {
    assert ([c] + s)[1..] == s && ([c] + t)[1..] == t;
  }

  // ----- Against the Rust translation -----

  /** An underscore with a letter or digit after it. */
  predicate Followed(s: string, i: nat)
    requires i < |s|
  {
    s[i] == '_' ==> i + 1 < |s| && LowerOrDigit(s[i + 1])
  }

  lemma FollowedStep(s: string)
    requires s != ""
    ensures (forall i :: 0 <= i < |s| ==> Followed(s, i)) <==>
            Followed(s, 0) && forall i :: 0 <= i < |s[1..]| ==> Followed(s[1..], i)
  {
    assert forall i :: 1 <= i < |s| ==> (Followed(s, i) <==> Followed(s[1..], i - 1));
    assert forall i :: 0 <= i < |s[1..]| ==> (Followed(s[1..], i) <==> Followed(s, i + 1));
  }

  lemma {:induction false} UnderscoresGone(s: string)
    requires forall c :: c in s ==> c != '.'
    ensures (forall i :: 0 <= i < |s| ==> Followed(s, i)) ==> SnakeToCamel(s) == KeySpelling.CamelFrom(s, false)
    ensures !(forall i :: 0 <= i < |s| ==> Followed(s, i)) ==> '_' in SnakeToCamel(s)
    decreases |s|
  {
    if s != "" {
      FollowedStep(s);
      assert forall c :: c in s[1..] ==> c in s;
      assert s[0] in s;
      if Matches(s) {
        FollowedStep(s[1..]);
        assert forall c :: c in s[2..] ==> c in s;
        assert s[1..][1..] == s[2..];
        UnderscoresGone(s[2..]);
      } else {
        UnderscoresGone(s[1..]);
      }
    }
  }

  /** No underscore stands before a letter or digit. */
  predicate Inert(s: string, i: nat)
    requires i < |s|
  {
    s[i] == '_' && i + 1 < |s| ==> !LowerOrDigit(s[i + 1])
  }

  lemma InertStep(s: string)
    requires s != ""
    ensures (forall i :: 0 <= i < |s| ==> Inert(s, i)) <==>
            Inert(s, 0) && forall i :: 0 <= i < |s[1..]| ==> Inert(s[1..], i)
  {
    assert forall i :: 1 <= i < |s| ==> (Inert(s, i) <==> Inert(s[1..], i - 1));
    assert forall i :: 0 <= i < |s[1..]| ==> (Inert(s[1..], i) <==> Inert(s, i + 1));
  }

  lemma {:induction false} InertUnchanged(s: string)
    requires forall c :: c in s ==> c != '.'
    ensures |SnakeToCamel(s)| <= |s|
    ensures SnakeToCamel(s) == s <==> forall i :: 0 <= i < |s| ==> Inert(s, i)
    decreases |s|
  {
    if s != "" {
      InertStep(s);
      assert forall c :: c in s[1..] ==> c in s;
      assert s[0] in s;
      if Matches(s) {
        assert forall c :: c in s[2..] ==> c in s;
        InertUnchanged(s[2..]);
        assert |SnakeToCamel(s)| < |s|;
      } else {
        InertUnchanged(s[1..]);
        assert SnakeToCamel(s)[1..] == SnakeToCamel(s[1..]) && s == [s[0]] + s[1..];
        hide SnakeToCamel;
      }
    }
  }

  /** Without dots, the Rust and the TypeScript translations agree on exactly these keys. */
  lemma AgreesWithRust(s: string)
    requires forall c :: c in s ==> c != '.'
    ensures SnakeToCamel(s) == KeySpelling.SnakeToCamel(s) <==>
            if s != "" && s[0] == '_' then forall i :: 0 <= i < |s| ==> Inert(s, i)
            else forall i :: 0 <= i < |s| ==> Followed(s, i)
  {
    if s != "" && s[0] == '_' {
      InertUnchanged(s);
    } else {
      UnderscoresGone(s);
      KeySpelling.CamelHasNoUnderscore(s, false);
    }
  }

  // ----- Whole settings objects -----

  function Alias(aliases: map<string, string>, k: string): string {
    if k in aliases then aliases[k] else k
  }

  /** The name `config.get()` shows for a snapshot key. */
  function ShownKey(aliases: map<string, string>, k: string): string {
    SnakeToCamel(Alias(aliases, k))
  }

  /** The key the constructor passes on for a name it is given. */
  function SettingsKey(k: string): string {
    if k == "embeddingModel" then "embedding_model_name" else CamelToSnake(k)
  }

  function Shown<V>(obj: Entries<string, V>, aliases: map<string, string>): (pairs: Entries<string, V>)
    ensures |pairs| == |obj| && forall i :: 0 <= i < |obj| ==> pairs[i] == (ShownKey(aliases, obj[i].0), obj[i].1)
  {
    seq(|obj|, i requires 0 <= i < |obj| => (ShownKey(aliases, obj[i].0), obj[i].1))
  }

  function Passed<V>(settings: Entries<string, V>): (pairs: Entries<string, V>)
    ensures |pairs| == |settings|
    ensures forall i :: 0 <= i < |settings| ==> pairs[i] == (SettingsKey(settings[i].0), settings[i].1)
  {
    seq(|settings|, i requires 0 <= i < |settings| => (SettingsKey(settings[i].0), settings[i].1))
  }

  /** Repeats the embedding model under its setter's name. */
  function WithModelAlias<V>(out: Entries<string, V>): Entries<string, V> {
    var i := Find(out, "embeddingModelName");
    if i < |out| && Find(out, "embeddingModel") == |out| then out + [("embeddingModel", out[i].1)] else out
  }

  function ShownSettings<V>(obj: Entries<string, V>, aliases: map<string, string>): Entries<string, V> {
    WithModelAlias(InsertAll([], Shown(obj, aliases)))
  }

  function PassedSettings<V>(settings: Entries<string, V>): Entries<string, V> {
    InsertAll([], Passed(settings))
  }

  method ConfigToCamel<V>(obj: Entries<string, V>, aliases: map<string, string>) returns (out: Entries<string, V>)
    ensures out == ShownSettings(obj, aliases)
  {
    out := [];
    ghost var pairs := Shown(obj, aliases);
    assert pairs[0..] == pairs;
    for i := 0 to |obj|
      invariant InsertAll([], pairs) == InsertAll(out, pairs[i..])
    {
      assert pairs[i..][0] == pairs[i] && pairs[i..][1..] == pairs[i + 1..];
      out := Insert(out, SnakeToCamel(Alias(aliases, obj[i].0)), obj[i].1);
    }
    var i := Find(out, "embeddingModelName");
    if i < |out| && Find(out, "embeddingModel") == |out| {
      out := Insert(out, "embeddingModel", out[i].1);
    }
  }

  method NormalizeSettings<V>(settings: Entries<string, V>) returns (out: Entries<string, V>)
    ensures out == PassedSettings(settings)
  {
    out := [];
    ghost var pairs := Passed(settings);
    assert pairs[0..] == pairs;
    for i := 0 to |settings|
      invariant InsertAll([], pairs) == InsertAll(out, pairs[i..])
    {
      assert pairs[i..][0] == pairs[i] && pairs[i..][1..] == pairs[i + 1..];
      var (k, v) := settings[i];
      out := Insert(out, if k == "embeddingModel" then "embedding_model_name" else CamelToSnake(k), v);
    }
  }

  /** Where a snapshot key ends up: respelled, and the embedding model under the field that holds it. */
  function CanonicalKey(aliases: map<string, string>, k: string): string {
    var key := Respelled(Alias(aliases, k));
    if key == "embedding_model" then "embedding_model_name" else key
  }

  function Canonical<V>(obj: Entries<string, V>, aliases: map<string, string>): (pairs: Entries<string, V>)
    ensures |pairs| == |obj| && forall i :: 0 <= i < |obj| ==> pairs[i] == (CanonicalKey(aliases, obj[i].0), obj[i].1)
  {
    seq(|obj|, i requires 0 <= i < |obj| => (CanonicalKey(aliases, obj[i].0), obj[i].1))
  }

  lemma {:induction false} RespelledKeepsDigits(s: string, d: char)
    requires IsDigit(d) && d in s
    ensures d in Respelled(s)
    decreases |s|
  {
    if Matches(s) {
      if s[1] != d {
        assert s[0] != d && s == [s[0], s[1]] + s[2..];
        RespelledKeepsDigits(s[2..], d);
      }
    } else if s[0] != d {
      assert s == [s[0]] + s[1..];
      RespelledKeepsDigits(s[1..], d);
    }
  }

  lemma {:induction false} SnakeOfPlain(s: string, rest: string)
    requires NoUpper(s)
    ensures CamelToSnake(s + rest) == s + CamelToSnake(rest)
  {
    if s == "" {
      assert s + rest == rest;
    } else {
      SnakeOfPlain(s[1..], rest);
      assert (s + rest)[1..] == s[1..] + rest;
    }
  }

  lemma {:induction false} CamelOfPlain(s: string, rest: string)
    requires forall c :: c in s ==> !IsSeparator(c)
    ensures SnakeToCamel(s + rest) == s + SnakeToCamel(rest)
  {
    if s == "" {
      assert s + rest == rest;
    } else {
      assert s[0] in s && forall c :: c in s[1..] ==> c in s;
      CamelOfPlain(s[1..], rest);
      CamelStep(s[0], s[1..] + rest);
      hide SnakeToCamel;
      assert s + rest == [s[0]] + (s[1..] + rest);
    }
  }

  lemma SnakeOfWord(head: char, rest: string, tail: string)
    requires IsUpper(head) && NoUpper(rest)
    ensures CamelToSnake([head] + rest + tail) == ['_', Lower(head)] + rest + CamelToSnake(tail)
  {
    var s := [head] + rest + tail;
    assert s[0] == head && s[1..] == rest + tail;
    SnakeOfPlain(rest, tail);
  }

  lemma EmptyNames()
    ensures CamelToSnake("") == "" && SnakeToCamel("") == ""
  {
  }

  lemma ModelNames()
    ensures CamelToSnake("embeddingModel") == "embedding_model"
    ensures SnakeToCamel("embedding_model") == "embeddingModel"
    ensures CamelToSnake("embeddingModelName") == "embedding_model_name"
  {
    hide CamelToSnake, SnakeToCamel;
    EmptyNames();
    SnakeOfWord('M', "odel", "");
    SnakeOfPlain("embedding", "Model");
    SnakeOfWord('N', "ame", "");
    SnakeOfWord('M', "odel", "Name");
    SnakeOfPlain("embedding", "ModelName");
    CamelStep('_', "model");
    assert "model"[1..] == "odel";
    CamelOfPlain("odel", "");
    CamelOfPlain("embedding", "_model");
    assert "embedding" + "Model" == "embeddingModel" && ['M'] + "odel" + "" == "Model";
    assert "embedding" + "ModelName" == "embeddingModelName" && ['M'] + "odel" + "Name" == "ModelName";
    assert ['N'] + "ame" + "" == "Name";
    assert "embedding" + "_model" == "embedding_model" && ['_'] + "model" == "_model" && "odel" + "" == "odel";
  }

  lemma NoDigitsNoDoubling(s: string)
    requires forall d :: d in Respelled(s) ==> !IsDigit(d)
    ensures forall i :: 0 <= i < |s| ==> !DoubledBeforeDigit(s, i)
  {
    forall i | 0 <= i < |s| ensures !DoubledBeforeDigit(s, i) {
      if DoubledBeforeDigit(s, i) {
        RespelledKeepsDigits(s, s[i + 2]);
      }
    }
  }

  lemma ModelNameIsShown(s: string)
    requires NoUpper(s)
    ensures SnakeToCamel(s) == "embeddingModel" <==> Respelled(s) == "embedding_model"
  {
    hide SnakeToCamel, CamelToSnake, Respelled;
    ModelNames();
    BackIsRespelled(s);
    if Respelled(s) == "embedding_model" {
      NoDigitsNoDoubling(s);
      NameIsStable(s);
    }
  }

  lemma SettingsKeyIsCanonical(aliases: map<string, string>, k: string)
    requires NoUpper(Alias(aliases, k))
    ensures SettingsKey(ShownKey(aliases, k)) == CanonicalKey(aliases, k)
  {
    ModelNameIsShown(Alias(aliases, k));
    BackIsRespelled(Alias(aliases, k));
  }

  /** What the source promises of a snapshot: keys in lower case, and every alias too. */
  ghost predicate LowerCaseKeys<V>(obj: Entries<string, V>, aliases: map<string, string>) {
    forall i :: 0 <= i < |obj| ==> NoUpper(Alias(aliases, obj[i].0))
  }

  lemma PassedShown<V>(obj: Entries<string, V>, aliases: map<string, string>)
    requires LowerCaseKeys(obj, aliases)
    ensures Passed(Shown(obj, aliases)) == Canonical(obj, aliases)
  {
    var left, right := Passed(Shown(obj, aliases)), Canonical(obj, aliases);
    forall i | 0 <= i < |obj| ensures left[i] == right[i] {
      SettingsKeyIsCanonical(aliases, obj[i].0);
    }
    assert left == right;
  }

  /** Names that are passed on under distinct keys are distinct. */
  lemma ShownDistinct<V(!new)>(pairs: Entries<string, V>)
    requires Distinct(Keys(Passed(pairs)))
    ensures Distinct(Keys(pairs))
  {
    var ks := Keys(Passed(pairs));
    assert forall i :: 0 <= i < |pairs| ==> ks[i] == SettingsKey(Keys(pairs)[i]);
  }

  /** A camelCase name: no underscore stands before a lower-case letter. */
  predicate IsCamel(s: string) {
    forall i :: 0 <= i < |s| - 1 && s[i] == '_' ==> !IsLower(s[i + 1])
  }

  lemma CamelTail(s: string)
    requires IsCamel(s) && s != ""
    ensures IsCamel(s[1..])
  {
  }

  lemma {:induction false} ShownIsCamel(s: string)
    ensures IsCamel(SnakeToCamel(s))
    ensures s != "" && !LowerOrDigit(s[0]) && SnakeToCamel(s) != "" ==> !IsLower(SnakeToCamel(s)[0])
    decreases |s|
  {
    if s != "" {
      var rest := if Matches(s) then s[2..] else s[1..];
      ShownIsCamel(rest);
      assert SnakeToCamel(s)[1..] == SnakeToCamel(rest);
      hide SnakeToCamel;
    }
  }

  /** Distinct camelCase names are passed on under distinct keys. */
  lemma {:induction false} CamelToSnakeInjective(a: string, b: string)
    requires IsCamel(a) && IsCamel(b) && CamelToSnake(a) == CamelToSnake(b)
    ensures a == b
    decreases |a|
  {
    if a == "" || b == "" {
      assert a == b;
    } else {
      SnakeHead(a);
      SnakeHead(b);
      CamelTail(a);
      CamelTail(b);
      if IsUpper(a[0]) == IsUpper(b[0]) {
        assert a[0] == b[0];
        CamelToSnakeInjective(a[1..], b[1..]);
        assert a == [a[0]] + a[1..] && b == [b[0]] + b[1..];
      } else if IsUpper(a[0]) {
        UnderscoreHead(b, CamelToSnake(a)[1]);
      } else {
        UnderscoreHead(a, CamelToSnake(b)[1]);
      }
    }
  }

  lemma SnakeHead(s: string)
    requires s != ""
    ensures var k := if IsUpper(s[0]) then 2 else 1;
            var t := CamelToSnake(s);
            && |t| >= k && t[k..] == CamelToSnake(s[1..])
            && if IsUpper(s[0]) then t[0] == '_' && t[1] == Lower(s[0]) && IsLower(t[1]) else t[0] == s[0]
  {
  }

  /** After an underscore that stands for itself no lower-case letter comes out. */
  lemma {:induction false} UnderscoreHead(s: string, c: char)
    requires IsCamel(s) && s != "" && s[0] == '_' && |CamelToSnake(s)| >= 2 && CamelToSnake(s)[1] == c
    ensures !IsLower(c)
  {
    SnakeHead(s);
    if |s| > 1 {
      SnakeHead(s[1..]);
    }
  }

  lemma {:induction false} LastBindingIs<V(!new)>(pairs: Entries<string, V>, i: nat)
    requires i < |pairs| && forall j :: i < j < |pairs| ==> pairs[j].0 != pairs[i].0
    ensures LastBinding(pairs, pairs[i].0) == Wrappers.Some(pairs[i].1)
    decreases |pairs|
  {
    var last := |pairs| - 1;
    if i < last {
      assert pairs[last].0 != pairs[i].0;
      LastBindingIs(pairs[..last], i);
    }
  }

  lemma {:induction false} LastBindingFrom<V(!new)>(pairs: Entries<string, V>, k: string)
    requires LastBinding(pairs, k).Some?
    ensures exists i :: 0 <= i < |pairs| && pairs[i] == (k, LastBinding(pairs, k).value)
                        && forall j :: i < j < |pairs| ==> pairs[j].0 != k
    decreases |pairs|
  {
    var last := |pairs| - 1;
    var v := LastBinding(pairs, k).value;
    if pairs[last].0 == k {
      assert pairs[last] == (k, v);
    } else {
      var front := pairs[..last];
      LastBindingFrom(front, k);
      assert LastBinding(front, k).value == v;
      hide LastBinding;
      var i :| 0 <= i < |front| && front[i] == (k, v) && forall j :: i < j < |front| ==> front[j].0 != k;
      assert pairs[i] == (k, v);
    }
  }

  /** The name a snapshot key shows under: its alias's, if it has one, in camelCase. */
  predicate ShowsAs(aliases: map<string, string>, k: string, name: string) {
    if k in aliases then name == SnakeToCamel(aliases[k]) else name == SnakeToCamel(k)
  }

  /** The entry is the last of the snapshot to show under the name. */
  ghost predicate LastShown<V>(obj: Entries<string, V>, aliases: map<string, string>, i: nat, name: string) {
    i < |obj| && ShowsAs(aliases, obj[i].0, name) && forall j :: i < j < |obj| ==> !ShowsAs(aliases, obj[j].0, name)
  }

  lemma ShownPairs<V(!new)>(obj: Entries<string, V>, aliases: map<string, string>, e: (string, V))
    ensures e in InsertAll([], Shown(obj, aliases)) <==>
            exists i: nat :: LastShown(obj, aliases, i, e.0) && e.1 == obj[i].1
  {
    hide SnakeToCamel, InsertAll;
    var pairs := Shown(obj, aliases);
    var out := InsertAll([], pairs);
    InsertAllMeaning(pairs);
    FirstSeenKeys(Keys(pairs));
    hide FirstSeen;
    assert forall i :: 0 <= i < |obj| ==> ShowsAs(aliases, obj[i].0, pairs[i].0);
    if e in out {
      LastBindingFrom(pairs, e.0);
      hide LastBinding;
      var i :| 0 <= i < |pairs| && pairs[i] == e && forall j :: i < j < |pairs| ==> pairs[j].0 != e.0;
      assert LastShown(obj, aliases, i, e.0);
    }
    if i: nat :| LastShown(obj, aliases, i, e.0) && e.1 == obj[i].1 {
      LastBindingIs(pairs, i);
      assert Keys(pairs)[i] == e.0;
      assert e.0 in Keys(out);
      var k :| 0 <= k < |out| && Keys(out)[k] == e.0;
      assert out[k] in out;
      hide LastBinding;
    }
  }

  /**
   What `config.get()` shows, entry by entry: every name with the value of the last setting to show under
   it, and the embedding model's name once more under its setter's name if nothing else shows there.
   */
  lemma ShownMeaning<V(!new)>(obj: Entries<string, V>, aliases: map<string, string>, e: (string, V))
    ensures e in ShownSettings(obj, aliases) <==>
            || (exists i: nat :: LastShown(obj, aliases, i, e.0) && e.1 == obj[i].1)
            || (e.0 == "embeddingModel"
                && (exists i: nat :: LastShown(obj, aliases, i, "embeddingModelName") && e.1 == obj[i].1)
                && !exists i: nat :: LastShown(obj, aliases, i, "embeddingModel"))
  {
    var out := InsertAll([], Shown(obj, aliases));
    ShownPairs(obj, aliases, e);
    ShownPairs(obj, aliases, ("embeddingModelName", e.1));
    forall v ensures ("embeddingModel", v) in out <==>
                     exists i: nat :: LastShown(obj, aliases, i, "embeddingModel") && v == obj[i].1 {
      ShownPairs(obj, aliases, ("embeddingModel", v));
    }
    ShownModelNames(obj, aliases);
    hide InsertAll, LastShown, SettingsKey;
    AliasEntry(out, e);
    hide WithModelAlias;
    assert (exists v :: ("embeddingModel", v) in out) <==>
           exists i: nat :: LastShown(obj, aliases, i, "embeddingModel");
  }

  lemma AliasEntry<V(!new)>(out: Entries<string, V>, e: (string, V))
    requires Distinct(Keys(out))
    ensures e in WithModelAlias(out) <==>
            e in out || (e.0 == "embeddingModel" && ("embeddingModelName", e.1) in out
                         && !exists v :: ("embeddingModel", v) in out)
  {
    var i := Find(out, "embeddingModelName");
    assert forall j :: 0 <= j < |out| ==> Keys(out)[j] == out[j].0;
    if ("embeddingModelName", e.1) in out {
      var j :| 0 <= j < |out| && out[j] == ("embeddingModelName", e.1);
      assert i == j;
    }
    var k := Find(out, "embeddingModel");
    if k < |out| {
      assert out[k] == ("embeddingModel", out[k].1);
      assert out[k] in out;
    }
  }

  /** The repeated embedding model lands on the one entry it repeats, with the same value. */
  lemma ModelAliasHarmless<V(!new)>(out: Entries<string, V>)
    requires forall i, j :: 0 <= i < |out| && 0 <= j < |out| ==>
               SettingsKey(out[i].0) == "embedding_model_name" == SettingsKey(out[j].0) ==> i == j
    ensures PassedSettings(WithModelAlias(out)) == PassedSettings(out)
  {
    hide CamelToSnake;
    var pairs, m := Passed(out), PassedSettings(out);
    var i := Find(out, "embeddingModelName");
    if i < |out| && Find(out, "embeddingModel") == |out| {
      ModelKeys();
      var all := Passed(WithModelAlias(out));
      assert all[..|all| - 1] == pairs && all[|all| - 1] == ("embedding_model_name", out[i].1);
      InsertAllLast([], all);
      assert pairs[i] == ("embedding_model_name", out[i].1);
      LastBindingIs(pairs, i);
      InsertAllMeaning(pairs);
      FirstSeenKeys(Keys(pairs));
      assert Keys(pairs)[i] == "embedding_model_name";
      assert "embedding_model_name" in Keys(m);
      var k :| 0 <= k < |m| && Keys(m)[k] == "embedding_model_name";
      assert m[k] in m;
      hide InsertAll, Insert, SettingsKey;
      InsertAgain(m, k);
    }
  }

  /** Whatever the snapshot, colliding keys included, the extra embedding-model entry changes nothing passed on. */
  lemma ModelAliasAddsNothing<V(!new)>(obj: Entries<string, V>, aliases: map<string, string>)
    ensures PassedSettings(ShownSettings(obj, aliases)) == PassedSettings(InsertAll([], Shown(obj, aliases)))
  {
    var out := InsertAll([], Shown(obj, aliases));
    if Find(out, "embeddingModel") == |out| {
      ShownModelNames(obj, aliases);
      hide SettingsKey, InsertAll;
      assert forall i :: 0 <= i < |out| ==> Keys(out)[i] == out[i].0;
      ModelAliasHarmless(out);
    }
  }

  lemma ShownModelNames<V(!new)>(obj: Entries<string, V>, aliases: map<string, string>)
    ensures var out := InsertAll([], Shown(obj, aliases));
            && Distinct(Keys(out))
            && forall i :: 0 <= i < |out| && SettingsKey(out[i].0) == "embedding_model_name" ==>
                 out[i].0 == "embeddingModel" || out[i].0 == "embeddingModelName"
  {
    hide SettingsKey, InsertAll;
    var shown := Shown(obj, aliases);
    var out := InsertAll([], shown);
    InsertAllMeaning(shown);
    FirstSeenKeys(Keys(shown));
    hide FirstSeen;
    forall i | 0 <= i < |out| && SettingsKey(out[i].0) == "embedding_model_name"
      ensures out[i].0 == "embeddingModel" || out[i].0 == "embeddingModelName"
    {
      assert Keys(out)[i] in Keys(shown);
      var j :| 0 <= j < |obj| && Keys(shown)[j] == out[i].0;
      OneModelName(Alias(aliases, obj[j].0));
    }
  }

  lemma OneModelName(k: string)
    requires SettingsKey(SnakeToCamel(k)) == "embedding_model_name"
    ensures SnakeToCamel(k) == "embeddingModel" || SnakeToCamel(k) == "embeddingModelName"
  {
    hide CamelToSnake, SnakeToCamel;
    ModelNames();
    ShownIsCamel(k);
    if SnakeToCamel(k) != "embeddingModel" {
      CamelToSnakeInjective(SnakeToCamel(k), "embeddingModelName");
    }
  }

  lemma InsertAgain<V(!new)>(m: Entries<string, V>, i: nat)
    requires Distinct(Keys(m)) && i < |m|
    ensures Insert(m, m[i].0, m[i].1) == m
  {
    var j := Find(m, m[i].0);
    assert Keys(m)[i] == m[i].0;
    assert j < |m| ==> Keys(m)[j] == m[j].0;
  }

  /**
   `new Cognee(other.config.get())` keeps every setting, in order and under its canonical key,
   whenever no two snapshot keys share one.
   */
  lemma SettingsRoundTrip<V(!new)>(obj: Entries<string, V>, aliases: map<string, string>)
    requires LowerCaseKeys(obj, aliases) && Distinct(Keys(Canonical(obj, aliases)))
    ensures PassedSettings(ShownSettings(obj, aliases)) == Canonical(obj, aliases)
  {
    var shown := Shown(obj, aliases);
    PassedShown(obj, aliases);
    ShownDistinct(shown);
    InsertAllConserves(shown);
    ModelAliasAddsNothing(obj, aliases);
    InsertAllConserves(Passed(shown));
  }

  lemma {:induction false} DistinctCount(ks: seq<string>)
    ensures Distinct(ks) ==> |set k | k in ks| == |ks|
    ensures |set k | k in ks| <= |ks|
  {
    if ks != [] {
      DistinctCount(ks[1..]);
      var s, rest := set k | k in ks, set k | k in ks[1..];
      assert s == rest + {ks[0]};
    }
  }

  lemma PassedFrom<V(!new)>(out: Entries<string, V>, k: string)
    requires k in Keys(PassedSettings(out))
    ensures exists j :: 0 <= j < |out| && k == SettingsKey(out[j].0)
  {
    InsertAllMeaning(Passed(out));
    FirstSeenKeys(Keys(Passed(out)));
    var j :| 0 <= j < |out| && Keys(Passed(out))[j] == k;
  }

  lemma ShownFrom<V(!new)>(pairs: Entries<string, V>, k: string)
    requires k in Keys(InsertAll([], pairs))
    ensures k in Keys(pairs)
  {
    InsertAllMeaning(pairs);
    FirstSeenKeys(Keys(pairs));
  }

  /** Every key passed on is the canonical key of some snapshot entry. */
  lemma PassedKeysAreCanonical<V(!new)>(obj: Entries<string, V>, aliases: map<string, string>, k: string)
    requires LowerCaseKeys(obj, aliases) && k in Keys(PassedSettings(ShownSettings(obj, aliases)))
    ensures k in Keys(Canonical(obj, aliases))
  {
    hide CamelToSnake, SettingsKey, PassedSettings, InsertAll;
    var shown, out := Shown(obj, aliases), ShownSettings(obj, aliases);
    var base := InsertAll([], shown);
    PassedFrom(out, k);
    var j :| 0 <= j < |out| && k == SettingsKey(out[j].0);
    ModelKeys();
    var at := if j < |base| then j else Find(base, "embeddingModelName");
    assert k == SettingsKey(base[at].0);
    assert Keys(base)[at] == base[at].0;
    ShownFrom(shown, base[at].0);
    var i :| 0 <= i < |shown| && Keys(shown)[i] == base[at].0;
    SettingsKeyIsCanonical(aliases, obj[i].0);
    assert Keys(Canonical(obj, aliases))[i] == k;
  }

  lemma ModelKeys()
    ensures SettingsKey("embeddingModel") == SettingsKey("embeddingModelName") == "embedding_model_name"
  {
    hide CamelToSnake;
    ModelNames();
  }

  /** And exactly then no setting is lost. */
  lemma SettingsConserved<V(!new)>(obj: Entries<string, V>, aliases: map<string, string>)
    requires LowerCaseKeys(obj, aliases)
    ensures |PassedSettings(ShownSettings(obj, aliases))| <= |obj|
    ensures |PassedSettings(ShownSettings(obj, aliases))| == |obj| <==> Distinct(Keys(Canonical(obj, aliases)))
  {
    var canonical := Keys(Canonical(obj, aliases));
    if Distinct(canonical) {
      SettingsRoundTrip(obj, aliases);
    } else {
      var final := Keys(PassedSettings(ShownSettings(obj, aliases)));
      forall k | k in final ensures k in canonical {
        PassedKeysAreCanonical(obj, aliases, k);
      }
      InsertAllMeaning(Passed(ShownSettings(obj, aliases)));
      FirstSeenKeys(Keys(Passed(ShownSettings(obj, aliases))));
      FirstSeenKeys(canonical);
      DistinctCount(final);
      DistinctCount(FirstSeen(canonical));
      assert (set k | k in final) <= (set k | k in FirstSeen(canonical));
      SubsetCount(set k | k in final, set k | k in FirstSeen(canonical));
    }
  }

  lemma {:induction false} SubsetCount(s: set<string>, t: set<string>)
    requires s <= t
    ensures |s| <= |t|
  {
    assert t == s + (t - s);
  }

  /** As it is here, where a dotted key and an underscored one become the same key. */
  lemma CollidingKeysLoseASetting()
    ensures var obj := [("a.b", 1), ("a_b", 2)];
            LowerCaseKeys(obj, map[]) && |PassedSettings(ShownSettings(obj, map[]))| < |obj|
  {
    var obj := [("a.b", 1), ("a_b", 2)];
    assert NoUpper("a.b") && NoUpper("a_b");
    DottedAndUnderscored();
    var ks := Keys(Canonical(obj, map[]));
    assert ks[0] == "a_b" && ks[1] == "a_b";
    hide Canonical, CanonicalKey, ShownSettings, PassedSettings;
    SettingsConserved(obj, map[]);
  }

  lemma DottedAndUnderscored()
    ensures CanonicalKey(map[], "a.b") == "a_b" && CanonicalKey(map[], "a_b") == "a_b"
  {
    assert Respelled("a.b") == "a_b";
    assert Respelled("a_b") == "a_b";
  }
}
