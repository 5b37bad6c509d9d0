/** Choosing the codecs a server is configured for: a loop over the core's payload types that takes entries out of the
    list it searches. */
module Codecs {

  class PayloadType {
    const mimeType: string
    var enabled: bool

    constructor (mimeType: string)
      ensures this.mimeType == mimeType
    {
      this.mimeType := mimeType;
    }

    method Enable(on: bool)
      modifies this
      ensures enabled == on
    {
      enabled := on;
    }
  }

  datatype Selection = Selected | Unsupported(mimeTypes: seq<string>)

  function Lower(c: char): char {
    if 'A' <= c <= 'Z' then c - 'A' + 'a' else c
  }

  function ToLower(s: string): (r: string)
    ensures |r| == |s| && forall i | 0 <= i < |s| :: r[i] == Lower(s[i])
  {
    seq(|s|, i requires 0 <= i < |s| => Lower(s[i]))
  }

  /** Equality up to the case of ASCII letters. */
  predicate IEquals(a: string, b: string) {
    |a| == |b| && forall i | 0 <= i < |a| :: Lower(a[i]) == Lower(b[i])
  }

  lemma IEqualsIsSameLower(a: string, b: string)
    ensures IEquals(a, b) <==> ToLower(a) == ToLower(b)
    ensures ToLower(ToLower(a)) == ToLower(a)
  {
  }

  /** Lower-casing turns exactly the capitals into the letters they stand for. */
  lemma ToLowerTurnsCapitals(s: string, i: nat)
    requires i < |s|
    ensures ToLower("ABCDEFGHIJKLMNOPQRSTUVWXYZ") == "abcdefghijklmnopqrstuvwxyz"
    ensures !('A' <= ToLower(s)[i] <= 'Z')
    ensures !('A' <= s[i] <= 'Z') ==> ToLower(s)[i] == s[i]
  {
  }

  // ---- What the selection comes to ----

  ghost predicate Supported(types: seq<string>, mime: string) {
    exists k | 0 <= k < |types| :: ToLower(types[k]) == mime
  }

  /** The requested strings that are not, letter for letter, the lower-cased type of a payload. */
  ghost function Missing(types: seq<string>, mimeTypes: seq<string>): seq<string> {
    if mimeTypes == [] then [] else
      (if Supported(types, mimeTypes[0]) then [] else [mimeTypes[0]]) + Missing(types, mimeTypes[1..])
  }

  /** Something like the type of payload `k` is requested that no payload before it has satisfied. */
  ghost predicate Chosen(types: seq<string>, mimeTypes: seq<string>, k: nat)
    requires k < |types|
  {
    exists m | m in mimeTypes :: IEquals(types[k], m) && !Supported(types[..k], m)
  }

  ghost function Types(codecs: seq<PayloadType>): (types: seq<string>)
    ensures |types| == |codecs| && forall k | 0 <= k < |codecs| :: types[k] == codecs[k].mimeType
  {
    seq(|codecs|, k requires 0 <= k < |codecs| => codecs[k].mimeType)
  }

  /** `list::remove`. */
  function Without(list: seq<string>, value: string): seq<string> {
    if list == [] then [] else (if list[0] == value then [] else [list[0]]) + Without(list[1..], value)
  }

  lemma {:induction false} MissingFromMore(types: seq<string>, t: string, mimeTypes: seq<string>)
    ensures Missing(types + [t], mimeTypes) == Without(Missing(types, mimeTypes), ToLower(t))
  {
    if mimeTypes != [] {
      var m := mimeTypes[0];
      MissingFromMore(types, t, mimeTypes[1..]);
      var rest := Missing(types, mimeTypes[1..]);
      SupportedByMore(types, t, m);
      assert ([m] + rest)[1..] == rest && [] + rest == rest;
      assert [] + Missing(types + [t], mimeTypes[1..]) == Missing(types + [t], mimeTypes[1..]);
    }
  }

  lemma SupportedByMore(types: seq<string>, t: string, m: string)
    ensures Supported(types + [t], m) <==> Supported(types, m) || ToLower(t) == m
  {
    var more := types + [t];
    if Supported(types, m) {
      var k :| 0 <= k < |types| && ToLower(types[k]) == m;
      assert more[k] == types[k];
    }
    assert more[|types|] == t;
  }

  lemma {:induction false} MissingAreUnsupported(types: seq<string>, mimeTypes: seq<string>, m: string)
    ensures m in Missing(types, mimeTypes) <==> m in mimeTypes && !Supported(types, m)
  {
    if mimeTypes != [] {
      MissingAreUnsupported(types, mimeTypes[1..], m);
    }
  }

  lemma {:induction false} NothingIsSupportedByNothing(mimeTypes: seq<string>)
    ensures Missing([], mimeTypes) == mimeTypes
  {
    if mimeTypes != [] {
      NothingIsSupportedByNothing(mimeTypes[1..]);
    }
  }

  lemma {:induction false} WithoutAbsent(list: seq<string>, value: string)
    requires value !in list
    ensures Without(list, value) == list
  {
    if list != [] {
      WithoutAbsent(list[1..], value);
    }
  }

  // ---- The loop ----

  /** A payload does not occur again before position `n`. */
  ghost predicate LastAt(codecs: seq<PayloadType>, k: nat, n: nat)
    requires k < n <= |codecs|
  {
    forall j | k < j < n :: codecs[j] != codecs[k]
  }

  /** `find_if` with `iequals`. */
  method Find(mimeTypes: seq<string>, mimeType: string) returns (found: bool)
    ensures found <==> exists m | m in mimeTypes :: IEquals(mimeType, m)
  {
    for i := 0 to |mimeTypes|
      invariant forall j | 0 <= j < i :: !IEquals(mimeType, mimeTypes[j])
    {
      if IEquals(mimeType, mimeTypes[i]) {
        return true;
      }
    }
    return false;
  }

  /** Fails with what is missing, in the order it was asked for. A payload that occurs once in the list ends up enabled
      exactly if it is chosen; of one that occurs more than once, the last occurrence decides. */
  method EnableSelectedCodecs(codecs: seq<PayloadType>, mimeTypes: seq<string>) returns (r: Selection)
    modifies codecs
    ensures var missing := Missing(Types(codecs), mimeTypes);
            r == if missing == [] then Selected else Unsupported(missing)
    ensures forall k | 0 <= k < |codecs| && LastAt(codecs, k, |codecs|) ::
              codecs[k].enabled <==> Chosen(Types(codecs), mimeTypes, k)
  {
    hide Missing, Chosen, IEquals, Supported, Without;
    var left := mimeTypes;
    ghost var types := Types(codecs);
    NothingIsSupportedByNothing(mimeTypes);
    assert types[..0] == [];
    for i := 0 to |codecs|
      invariant left == Missing(types[..i], mimeTypes)
      invariant forall k | 0 <= k < i && LastAt(codecs, k, i) :: codecs[k].enabled <==> Chosen(types, mimeTypes, k)
    {
      var codec := codecs[i];
      var found := Find(left, codec.mimeType);
      FoundIsChosen(types, mimeTypes, i);
      MissingFromMore(types[..i], types[i], mimeTypes);
      assert types[..i + 1] == types[..i] + [types[i]];
      assert forall k | 0 <= k < i && LastAt(codecs, k, i + 1) :: LastAt(codecs, k, i) && codecs[k] != codec;
      if found {
        codec.Enable(true);
        left := Without(left, ToLower(codec.mimeType));
      } else {
        NotFoundIsAbsent(left, codec.mimeType);
        WithoutAbsent(left, ToLower(codec.mimeType));
        codec.Enable(false);
      }
    }
    assert types[..|codecs|] == types;
    r := if left == [] then Selected else Unsupported(left);
  }

  lemma FoundIsChosen(types: seq<string>, mimeTypes: seq<string>, i: nat)
    requires i < |types|
    ensures Chosen(types, mimeTypes, i) <==> exists m | m in Missing(types[..i], mimeTypes) :: IEquals(types[i], m)
  {
  }

  lemma NotFoundIsAbsent(list: seq<string>, mimeType: string)
    requires forall m | m in list :: !IEquals(mimeType, m)
    ensures ToLower(mimeType) !in list
  {
  }

  // ---- What it means ----

  /** The selection succeeds exactly if every requested string is the lower-cased type of some payload: a request in
      upper case fails, even though it enables payloads on the way. */
  lemma SucceedsExactlyWhenAllAreSupported(types: seq<string>, mimeTypes: seq<string>)
    ensures Missing(types, mimeTypes) == [] <==> forall m | m in mimeTypes :: Supported(types, m)
  {
  }

  lemma UpperCaseEnablesAndFails()
    ensures Chosen(["PCMU"], ["PCMU"], 0) && Missing(["PCMU"], ["PCMU"]) == ["PCMU"]
  {
    assert "PCMU" in ["PCMU"] && IEquals("PCMU", "PCMU");
    assert ToLower("PCMU")[0] == 'p';
  }

  /** After a success the payloads chosen are the first of each requested type, and no others. */
  lemma ChosenAreTheFirstOfTheirType(types: seq<string>, mimeTypes: seq<string>, k: nat)
    requires Missing(types, mimeTypes) == [] && k < |types|
    ensures Chosen(types, mimeTypes, k) <==>
            ToLower(types[k]) in mimeTypes && forall j | 0 <= j < k :: ToLower(types[j]) != ToLower(types[k])
  {
    SucceedsExactlyWhenAllAreSupported(types, mimeTypes);
    forall m | m in mimeTypes ensures IEquals(types[k], m) <==> m == ToLower(types[k]) {
      var i :| 0 <= i < |types| && ToLower(types[i]) == m;
      IEqualsIsSameLower(types[i], types[k]);
      IEqualsIsSameLower(types[k], m);
    }
  }
}
