/**
 * Start-up of the batch script: reading the three credentials from the
 * environment, parsing the comma-separated data-provider key list, the fatal
 * check that stops the batch before any job runs, and the masked key display.
 */
module Startup {
  import opened Wrappers
  import opened Text

  /** A process environment: variable name to value. */
  type Env = map<string, string>

  const OpenAIKeyVar: string := "OPENAI_API_KEY"
  const BraveKeyVar: string := "BRAVE_API_KEY"
  const DataKeysVar: string := "AV_KEYS"

  /** `os.getenv(name, default)`. */
  function Getenv(env: Env, name: string, default: string): string {
    if name in env then env[name] else default
  }

  /** `[k.strip() for k in pieces if k.strip()]`. */
  function KeepKeys(pieces: seq<string>): (keys: seq<string>)
    ensures |keys| <= |pieces|
    ensures forall i :: 0 <= i < |keys| ==> keys[i] != "" && IsStripped(keys[i])
    decreases |pieces|
  {
    if |pieces| == 0 then []
    else
      var k := Strip(pieces[0]);
      (if k != "" then [k] else []) + KeepKeys(pieces[1..])
  }

  /** Stripping and filtering never introduce a character the pieces lack. */
  lemma {:induction false} KeepKeysOmit(pieces: seq<string>, c: char)
    requires forall j :: 0 <= j < |pieces| ==> c !in pieces[j]
    ensures forall i :: 0 <= i < |KeepKeys(pieces)| ==> c !in KeepKeys(pieces)[i]
    decreases |pieces|
  {
    if |pieces| > 0 {
      StripKeepsOut(pieces[0], c);
      KeepKeysOmit(pieces[1..], c);
    }
  }

  /** A character absent from `s` is absent from `s.strip()`. */
  lemma StripKeepsOut(s: string, c: char)
    requires c !in s
    ensures c !in Strip(s)
  {
    var i := StripStart(s);
    var j := StripEnd(s[i..]);
    StripBounds(s, i, j);
    var r := Strip(s);
    forall k | 0 <= k < |r|
      ensures r[k] != c
    {
      assert r[k] == s[i + k];
    }
  }

  /** The data-provider key list: `AV_KEYS` split on commas, each piece stripped, empty pieces dropped. */
  function ParseKeys(raw: string): (keys: seq<string>)
    ensures |keys| <= Count(raw, ',') + 1
    ensures forall i :: 0 <= i < |keys| ==> keys[i] != "" && IsStripped(keys[i]) && ',' !in keys[i]
  {
    KeepKeysOmit(Split(raw, ','), ',');
    KeepKeys(Split(raw, ','))
  }

  /** A comma-free value gives the one stripped key it holds, or none when it is blank. */
  lemma ParseKeysPiece(p: string)
    requires ',' !in p
    ensures ParseKeys(p) == (if Strip(p) == "" then [] else [Strip(p)])
  {
    SplitNoSep(p, ',');
    assert [p][1..] == [];
  }

  /** `AV_KEYS="k1, k2"`: the space after the comma is stripped off the second key. */
  lemma ParseKeysSpaced(k1: string, k2: string)
    requires k1 != "" && IsStripped(k1) && ',' !in k1
    requires k2 != "" && IsStripped(k2) && ',' !in k2
    ensures ParseKeys(k1 + ", " + k2) == [k1, k2]
  {
    SpacedPieces(k1, k2);
    ParseKeysAround(k1, " " + k2);
    SpacedRegroup(k1, k2);
  }

  /** The two pieces around the comma each give their key. */
  lemma SpacedPieces(k1: string, k2: string)
    requires k1 != "" && IsStripped(k1) && ',' !in k1
    requires k2 != "" && IsStripped(k2) && ',' !in k2
    ensures ParseKeys(k1) == [k1] && ParseKeys(" " + k2) == [k2]
  {
    var b := " " + k2;
    assert ',' !in b by {
      assert forall i :: 1 <= i < |b| ==> b[i] == k2[i - 1];
    }
    StripClean(k1);
    StripLeadingSpace(k2);
    ParseKeysPiece(k1);
    ParseKeysPiece(b);
  }

  lemma SpacedRegroup(k1: string, k2: string)
    ensures k1 + ", " + k2 == k1 + "," + (" " + k2)
  {
    assert ", " == "," + " ";
    ConcatAssoc(k1, ",", " ");
    ConcatAssoc(k1 + ",", " ", k2);
  }

  lemma ConcatAssoc(x: string, y: string, z: string)
    ensures x + (y + z) == (x + y) + z
  {
  }

  /** One leading space is all `strip()` removes from a stripped, non-empty string. */
  lemma StripLeadingSpace(k: string)
    requires k != "" && IsStripped(k)
    ensures Strip(" " + k) == k
  {
    var s := " " + k;
    assert s[1..] == k;
    assert StripStart(k) == 0;
    assert StripStart(s) == 1;
    assert StripEnd(k) == |k|;
    assert s[1..1 + |k|] == k;
  }

  lemma {:induction false} KeepKeysAppend(a: seq<string>, b: seq<string>)
    ensures KeepKeys(a + b) == KeepKeys(a) + KeepKeys(b)
    decreases |a|
  {
    if |a| == 0 {
      assert a + b == b;
    } else {
      var k := Strip(a[0]);
      var head := if k != "" then [k] else [];
      assert (a + b)[0] == a[0];
      assert (a + b)[1..] == a[1..] + b;
      assert KeepKeys(a + b) == head + KeepKeys(a[1..] + b);
      KeepKeysAppend(a[1..], b);
      assert head + (KeepKeys(a[1..]) + KeepKeys(b)) == (head + KeepKeys(a[1..])) + KeepKeys(b);
    }
  }

  /** Pieces that are already clean keys are kept as they are, in order. */
  lemma {:induction false} KeepKeysClean(keys: seq<string>)
    requires forall i :: 0 <= i < |keys| ==> keys[i] != "" && IsStripped(keys[i])
    ensures KeepKeys(keys) == keys
    decreases |keys|
  {
    if |keys| > 0 {
      KeepKeysClean(keys[1..]);
      assert Strip(keys[0]) == keys[0] by {
        StripClean(keys[0]);
      }
      assert keys == [keys[0]] + keys[1..];
    }
  }

  /** `strip()` leaves an already-stripped string unchanged. */
  lemma StripClean(s: string)
    requires IsStripped(s)
    ensures Strip(s) == s
  {
    assert StripStart(s) == 0;
    assert StripEnd(s) == |s|;
  }

  /**
   * Round trip: joining clean keys (non-empty, stripped, comma-free) with
   * commas and parsing the result gives the same keys in the same order.
   */
  lemma ParseJoinedKeys(keys: seq<string>)
    requires forall i :: 0 <= i < |keys| ==> keys[i] != "" && IsStripped(keys[i]) && ',' !in keys[i]
    ensures ParseKeys(Join(keys, ',')) == keys
  {
    if |keys| == 0 {
      assert Split("", ',') == [""];
      assert Strip("") == "";
    } else {
      SplitJoin(keys, ',');
      KeepKeysClean(keys);
    }
  }

  /** Parsing respects the list order: the keys before a comma come first, then those after it. */
  lemma ParseKeysAround(a: string, b: string)
    ensures ParseKeys(a + "," + b) == ParseKeys(a) + ParseKeys(b)
  {
    SplitAround(a, b, ',');
    KeepKeysAppend(Split(a, ','), Split(b, ','));
  }

  /** `strip()` yields "" exactly on whitespace-only strings. */
  lemma StripEmptyIff(s: string)
    ensures Strip(s) == "" <==> AllSpace(s)
  {
    var i := StripStart(s);
    var j := StripEnd(s[i..]);
    StripBounds(s, i, j);
    if j == 0 {
      assert s[..i] == s;
    } else {
      assert Strip(s)[0] == s[i];
    }
  }

  /** Every piece is whitespace only. */
  predicate AllPiecesSpace(parts: seq<string>)
    decreases |parts|
  {
    |parts| == 0 || (AllSpace(parts[0]) && AllPiecesSpace(parts[1..]))
  }

  lemma {:induction false} KeepKeysEmptyIff(pieces: seq<string>)
    ensures KeepKeys(pieces) == [] <==> AllPiecesSpace(pieces)
    decreases |pieces|
  {
    if |pieces| > 0 {
      StripEmptyIff(pieces[0]);
      KeepKeysEmptyIff(pieces[1..]);
    }
  }

  /** Every character is whitespace or a comma. */
  predicate OnlySpacesAndCommas(s: string) {
    forall i :: 0 <= i < |s| ==> s[i] == ',' || IsSpace(s[i])
  }

  lemma OnlySpacesAndCommasCons(s: string)
    requires |s| > 0
    ensures OnlySpacesAndCommas(s) <==> (s[0] == ',' || IsSpace(s[0])) && OnlySpacesAndCommas(s[1..])
  {
    assert forall i :: 1 <= i < |s| ==> s[i] == s[1..][i - 1];
  }

  lemma AllSpaceCons(c: char, x: string)
    ensures AllSpace([c] + x) <==> IsSpace(c) && AllSpace(x)
  {
    var y := [c] + x;
    if AllSpace(y) {
      assert y[0] == c;
      forall i | 0 <= i < |x|
        ensures IsSpace(x[i])
      {
        assert y[i + 1] == x[i];
      }
    }
    if IsSpace(c) && AllSpace(x) {
      forall i | 0 <= i < |y|
        ensures IsSpace(y[i])
      {
        if i > 0 {
          assert y[i] == x[i - 1];
        }
      }
    }
  }

  lemma {:induction false} SplitAllSpace(s: string)
    ensures OnlySpacesAndCommas(s) <==> AllPiecesSpace(Split(s, ','))
    decreases |s|
  {
    if |s| > 0 {
      SplitAllSpace(s[1..]);
      OnlySpacesAndCommasCons(s);
      var rest := Split(s[1..], ',');
      var parts := Split(s, ',');
      if s[0] != ',' {
        AllSpaceCons(s[0], rest[0]);
        assert parts == [[s[0]] + rest[0]] + rest[1..];
        assert parts[1..] == rest[1..];
      } else {
        assert parts == [""] + rest;
        assert parts[1..] == rest;
      }
    }
  }

  /** The key list is empty exactly when the raw value holds nothing but whitespace and commas. */
  lemma ParseKeysEmptyIff(raw: string)
    ensures ParseKeys(raw) == [] <==> OnlySpacesAndCommas(raw)
  {
    KeepKeysEmptyIff(Split(raw, ','));
    SplitAllSpace(raw);
  }

  /** The credentials the batch runs with, and the environment after they are written back. */
  datatype Settings = Settings(openAIKey: string, braveKey: string, dataKeys: seq<string>, env: Env)

  /** `exit(1)` with the fatal message: the batch stops before any job is submitted. */
  datatype Abort = Abort(exitCode: int, message: string)

  const FatalMessage: string :=
    "❌ 致命错误: 未能在环境变量中找到必要的 API Keys (OpenAI, AV, 或 BRAVE)。请检查 GitHub Secrets 配置。"

  /**
   * Reads the three credentials (a missing variable reads as ""), writes the
   * two service keys back into the environment, and refuses to go on when any
   * of them is empty.
   */
  function LoadSettings(env: Env): (r: Result<Settings, Abort>)
    ensures r.Failure? <==>
      || Getenv(env, OpenAIKeyVar, "") == ""
      || Getenv(env, BraveKeyVar, "") == ""
      || OnlySpacesAndCommas(Getenv(env, DataKeysVar, ""))
    ensures r.Failure? ==> r.error == Abort(1, FatalMessage)
    ensures r.Success? ==>
      && r.value.openAIKey == Getenv(env, OpenAIKeyVar, "")
      && r.value.braveKey == Getenv(env, BraveKeyVar, "")
      && r.value.dataKeys == ParseKeys(Getenv(env, DataKeysVar, ""))
      && r.value.openAIKey != "" && r.value.braveKey != "" && |r.value.dataKeys| > 0
      && OpenAIKeyVar in r.value.env && r.value.env[OpenAIKeyVar] == r.value.openAIKey
      && BraveKeyVar in r.value.env && r.value.env[BraveKeyVar] == r.value.braveKey
      && (forall v :: v in env && v != OpenAIKeyVar && v != BraveKeyVar ==> v in r.value.env && r.value.env[v] == env[v])
  {
    var openAIKey := Getenv(env, OpenAIKeyVar, "");
    var braveKey := Getenv(env, BraveKeyVar, "");
    var dataKeys := ParseKeys(Getenv(env, DataKeysVar, ""));
    ParseKeysEmptyIff(Getenv(env, DataKeysVar, ""));
    if dataKeys == [] || openAIKey == "" || braveKey == "" then Failure(Abort(1, FatalMessage))
    else Success(Settings(openAIKey, braveKey, dataKeys, WriteBack(env, openAIKey, braveKey)))
  }

  /** `os.environ[...] = ...` for the two service keys. */
  function WriteBack(env: Env, openAIKey: string, braveKey: string): (e: Env)
    ensures OpenAIKeyVar in e && e[OpenAIKeyVar] == openAIKey
    ensures BraveKeyVar in e && e[BraveKeyVar] == braveKey
    ensures forall v :: v in env && v != OpenAIKeyVar && v != BraveKeyVar ==> v in e && e[v] == env[v]
  {
    env[OpenAIKeyVar := openAIKey][BraveKeyVar := braveKey]
  }

  function Min(a: int, b: int): int {
    if a <= b then a else b
  }

  /** `key[:4] + "****"`: the key as shown in the start-up banner. */
  function Mask(key: string): (shown: string)
    ensures |shown| == Min(4, |key|) + 4
    ensures IsPrefix(shown[..|shown| - 4], key)
    ensures shown[|shown| - 4..] == "****"
  {
    key[..Min(4, |key|)] + "****"
  }

  /** The display depends on nothing past the fourth character of the key. */
  lemma MaskShowsOnlyPrefix(k1: string, k2: string)
    requires |k1| >= 4 && |k2| >= 4 && k1[..4] == k2[..4]
    ensures Mask(k1) == Mask(k2)
  {
  }
}
