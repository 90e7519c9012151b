/** The name and file rules of the OpenSea event scraper (`_save_nft_file`):
    the NFT-name sanitiser, the output file name and the saved payload. */
module NftNames {
  import opened Common

  /** `str.isalnum`, restricted to ASCII. */
  predicate IsAlnum(c: char)
  {
    'a' <= c <= 'z' || 'A' <= c <= 'Z' || '0' <= c <= '9'
  }

  /** Characters the first pass of the sanitiser keeps as they are. */
  predicate Kept(c: char)
  {
    IsAlnum(c) || c == ' ' || c == '-' || c == '_'
  }

  /** Characters a sanitised name is made of. */
  predicate SafeChar(c: char)
  {
    IsAlnum(c) || c == '-' || c == '_'
  }

  predicate AllSafe(s: string)
  {
    forall i :: 0 <= i < |s| ==> SafeChar(s[i])
  }

  /** The generator expression: every character that is not kept becomes `_`. */
  function KeepOrUnderscore(s: string): string
  {
    seq(|s|, i requires 0 <= i < |s| => if Kept(s[i]) then s[i] else '_')
  }

  /** Leading spaces removed. */
  function TrimStart(s: string): string
  {
    if s != [] && s[0] == ' ' then TrimStart(s[1..]) else s
  }

  /** Trailing spaces removed. */
  function TrimEnd(s: string): string
  {
    if s != [] && s[|s| - 1] == ' ' then TrimEnd(s[..|s| - 1]) else s
  }

  /** What `TrimStart` leaves is a suffix of `s`, everything it removed was a space, and
      what is left does not start with one. */
  lemma {:induction false} TrimStartSpec(s: string)
    ensures var r := TrimStart(s);
      && |r| <= |s| && r == s[|s| - |r|..]
      && (forall i :: 0 <= i < |s| - |r| ==> s[i] == ' ')
      && (r == [] || r[0] != ' ')
  {
    if s != [] && s[0] == ' ' {
      TrimStartSpec(s[1..]);
      var r := TrimStart(s);
      assert forall i :: 1 <= i < |s| - |r| ==> s[i] == s[1..][i - 1];
    }
  }

  /** What `TrimEnd` leaves is a prefix of `s`, everything it removed was a space, and
      what is left does not end with one. */
  lemma {:induction false} TrimEndSpec(s: string)
    ensures var r := TrimEnd(s);
      && |r| <= |s| && r == s[..|r|]
      && (forall i :: |r| <= i < |s| ==> s[i] == ' ')
      && (r == [] || r[|r| - 1] != ' ')
  {
    if s != [] && s[|s| - 1] == ' ' {
      TrimEndSpec(s[..|s| - 1]);
    }
  }

  /** `str.strip()`. On the output of `KeepOrUnderscore` the only whitespace left is the
      space, so stripping spaces is stripping whitespace. */
  function Strip(s: string): string
  {
    TrimEnd(TrimStart(s))
  }

  /** `.replace(" ", "_")` */
  function SpacesToUnderscores(s: string): string
  {
    seq(|s|, i requires 0 <= i < |s| => if s[i] == ' ' then '_' else s[i])
  }

  /** The sanitised NFT name used in the output file name. */
  function Sanitize(name: string): string
  {
    SpacesToUnderscores(Strip(KeepOrUnderscore(name)))
  }

  /** Stripping keeps a contiguous part of the string. */
  lemma StripIsSlice(s: string)
    ensures exists a, b :: 0 <= a <= b <= |s| && Strip(s) == s[a..b]
  {
    var t := TrimStart(s);
    TrimStartSpec(s);
    TrimEndSpec(t);
    var a := |s| - |t|;
    var b := a + |TrimEnd(t)|;
    assert Strip(s) == s[a..b];
  }

  /** Stripping leaves a string without leading or trailing spaces unchanged. */
  lemma StripUnchanged(s: string)
    requires s == [] || (s[0] != ' ' && s[|s| - 1] != ' ')
    ensures Strip(s) == s
  {
    if s != [] {
      assert TrimStart(s) == s;
      assert TrimEnd(s) == s;
    }
  }

  /** A sanitised name holds only alphanumerics, `-` and `_`, and is no longer than the name. */
  lemma SanitizeSafe(name: string)
    ensures AllSafe(Sanitize(name))
    ensures |Sanitize(name)| <= |name|
  {
    var k := KeepOrUnderscore(name);
    StripIsSlice(k);
    var a, b :| 0 <= a <= b <= |k| && Strip(k) == k[a..b];
    var t := Strip(k);
    var r := SpacesToUnderscores(t);
    assert |r| == |t| == b - a;
    forall i | 0 <= i < |r|
      ensures SafeChar(r[i])
    {
      assert t[i] == k[a + i];
      assert Kept(t[i]);
    }
  }

  /** A name already made only of alphanumerics, `-` and `_` is returned unchanged. */
  lemma SanitizeKeepsSafe(name: string)
    requires AllSafe(name)
    ensures Sanitize(name) == name
  {
    var k := KeepOrUnderscore(name);
    assert |k| == |name| && forall i :: 0 <= i < |k| ==> k[i] == name[i];
    assert k == name;
    StripUnchanged(name);
    var r := SpacesToUnderscores(name);
    assert |r| == |name| && forall i :: 0 <= i < |r| ==> r[i] == name[i];
  }

  /** Sanitising returns its input exactly when the input is already safe. */
  lemma SanitizeFixedPoints(name: string)
    ensures Sanitize(name) == name <==> AllSafe(name)
  {
    if AllSafe(name) {
      SanitizeKeepsSafe(name);
    } else {
      SanitizeSafe(name);
    }
  }

  /** Sanitising twice is sanitising once. */
  lemma SanitizeIdempotent(name: string)
    ensures Sanitize(Sanitize(name)) == Sanitize(name)
  {
    SanitizeSafe(name);
    SanitizeKeepsSafe(Sanitize(name));
  }

  /** For a name that neither starts nor ends with a space, sanitising is character by
      character: safe characters stay, every other character (the space included) becomes `_`. */
  lemma SanitizePointwise(name: string)
    requires name == [] || (name[0] != ' ' && name[|name| - 1] != ' ')
    ensures |Sanitize(name)| == |name|
    ensures forall i :: 0 <= i < |name| ==> Sanitize(name)[i] == if SafeChar(name[i]) then name[i] else '_'
  {
    var k := KeepOrUnderscore(name);
    StripUnchanged(k);
  }

  /** A name made only of spaces sanitises to the empty name. */
  lemma SanitizeBlank(name: string)
    requires forall i :: 0 <= i < |name| ==> name[i] == ' '
    ensures Sanitize(name) == ""
  {
    var k := KeepOrUnderscore(name);
    assert forall i :: 0 <= i < |k| ==> k[i] == ' ';
    var t := TrimStart(k);
    TrimStartSpec(k);
    assert |t| == 0;
  }

  /** `NFT_{safe_name}_{token_id}.json` inside the output directory. */
  function NftFileName(safeName: string, tokenId: string): string
  {
    "NFT_" + safeName + "_" + tokenId + ".json"
  }

  /** The last `_` of `s`, if any. */
  function LastUnderscore(s: string): (r: Option<nat>)
    ensures r.Some? ==> r.value < |s| && s[r.value] == '_'
    ensures r.Some? ==> forall j :: r.value < j < |s| ==> s[j] != '_'
    ensures r.None? ==> forall j :: 0 <= j < |s| ==> s[j] != '_'
  {
    if s == [] then None
    else if s[|s| - 1] == '_' then Some(|s| - 1)
    else LastUnderscore(s[..|s| - 1])
  }

  /** Reads the sanitised name and the token id back from an output file name. */
  function ParseNftFileName(f: string): Option<(string, string)>
  {
    if |f| >= 9 && StartsWith(f, "NFT_") && EndsWith(f, ".json") then
      var middle := f[4..|f| - 5];
      match LastUnderscore(middle)
      case Some(k) => Some((middle[..k], middle[k + 1..]))
      case None => None
    else None
  }

  /** A token id without `_` (OpenSea token ids are decimal) is recovered from the file name. */
  lemma ParseNftFileNameRoundTrip(safeName: string, tokenId: string)
    requires forall j :: 0 <= j < |tokenId| ==> tokenId[j] != '_'
    ensures ParseNftFileName(NftFileName(safeName, tokenId)) == Some((safeName, tokenId))
  {
    var f := NftFileName(safeName, tokenId);
    var middle := safeName + "_" + tokenId;
    assert f == "NFT_" + middle + ".json";
    assert f[..4] == "NFT_";
    assert f[|f| - 5..] == ".json";
    assert f[4..|f| - 5] == middle;
    var last := LastUnderscore(middle);
    assert middle[|safeName|] == '_';
    assert forall j :: |safeName| < j < |middle| ==> middle[j] == tokenId[j - |safeName| - 1];
    assert last == Some(|safeName|);
    assert middle[..|safeName|] == safeName;
    assert middle[|safeName| + 1..] == tokenId;
  }

  /** Two tokens with different ids never write the same file. */
  lemma NftFileNameInjective(name1: string, id1: string, name2: string, id2: string)
    requires forall j :: 0 <= j < |id1| ==> id1[j] != '_'
    requires forall j :: 0 <= j < |id2| ==> id2[j] != '_'
    requires NftFileName(name1, id1) == NftFileName(name2, id2)
    ensures name1 == name2 && id1 == id2
  {
    ParseNftFileNameRoundTrip(name1, id1);
    ParseNftFileNameRoundTrip(name2, id2);
  }

  /** The "metadata" object of a saved file. The timestamp is left out. */
  datatype NftMetadata = NftMetadata(tokenId: string, nftName: string, eventCount: nat)

  /** A saved file: metadata and the events in the order they were received. */
  datatype NftFile = NftFile(metadata: NftMetadata, events: seq<Json>)

  /** The payload `_save_nft_file` writes. */
  function NftFileOf(tokenId: string, nftName: string, events: seq<Json>): (f: NftFile)
    ensures f.metadata.eventCount == |f.events|
    ensures f.events == events && f.metadata.tokenId == tokenId && f.metadata.nftName == nftName
  {
    NftFile(NftMetadata(tokenId, nftName, |events|), events)
  }
}
