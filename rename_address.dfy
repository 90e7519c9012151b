/** The one-off rename rule of `rename_address.py`: a file named `buyer_<...>.json` is
    renamed with its first `buyer_` removed; every other name is left alone. */
module RenameAddress {
  import opened Common
  import opened EtherscanApi

  /** `filename.startswith("buyer_") and filename.endswith(".json")` */
  predicate Matches(name: string)
  {
    StartsWith(name, "buyer_") && EndsWith(name, ".json")
  }

  /** Whether `pat` occurs in `s` at index `i`. */
  predicate OccursAt(s: string, pat: string, i: nat)
  {
    i + |pat| <= |s| && s[i..i + |pat|] == pat
  }

  /** The index of the first occurrence of `pat` in `s`. */
  function FindFirst(s: string, pat: string): (r: Option<nat>)
    ensures r.Some? ==> OccursAt(s, pat, r.value) && forall k :: 0 <= k < r.value ==> !OccursAt(s, pat, k)
    ensures r.None? ==> forall k :: 0 <= k <= |s| ==> !OccursAt(s, pat, k)
    decreases |s|
  {
    if |s| < |pat| then None
    else if s[..|pat|] == pat then Some(0)
    else
      var tail := FindFirst(s[1..], pat);
      assert forall k :: 1 <= k <= |s| ==> (OccursAt(s, pat, k) <==> OccursAt(s[1..], pat, k - 1)) by {
        forall k | 1 <= k <= |s|
          ensures OccursAt(s, pat, k) <==> OccursAt(s[1..], pat, k - 1)
        {
          if k + |pat| <= |s| {
            assert s[k..k + |pat|] == s[1..][k - 1..k - 1 + |pat|];
          }
        }
      }
      if tail.Some? then Some(tail.value + 1) else None
  }

  /** `s.replace(pat, repl, 1)`: the first occurrence of `pat` replaced by `repl`. */
  function ReplaceFirst(s: string, pat: string, repl: string): string
  {
    match FindFirst(s, pat)
    case None => s
    case Some(i) => s[..i] + repl + s[i + |pat|..]
  }

  /** The name a file is renamed to, or `None` when it is left alone. */
  function NewName(name: string): Option<string>
  {
    if Matches(name) then Some(ReplaceFirst(name, "buyer_", "")) else None
  }

  /** Only a name that starts with `buyer_` and ends with `.json` is renamed, and its new
      name is the old one without its leading `buyer_`: it still ends with `.json` and
      is six characters shorter. */
  lemma NewNameDropsPrefix(name: string)
    ensures NewName(name).Some? <==> Matches(name)
    ensures Matches(name) ==>
      && |name| >= 11
      && NewName(name) == Some(name[6..])
      && EndsWith(name[6..], ".json") && |name[6..]| == |name| - 6
  {
    if Matches(name) {
      assert OccursAt(name, "buyer_", 0);
      assert forall i :: 0 <= i < 6 ==> name[i] == name[..6][i] != '.';
      assert name[|name| - 5] == name[|name| - 5..][0] == '.';
      assert name[..0] + "" + name[6..] == name[6..];
      var n := name[6..];
      assert n[|n| - 5..] == name[|name| - 5..];
    }
  }

  /** The rename is not idempotent: only the first `buyer_` goes, so a second pass
      renames again. */
  lemma RenameNotIdempotent()
    ensures NewName("buyer_buyer_x.json") == Some("buyer_x.json")
    ensures NewName("buyer_x.json") == Some("x.json")
  {
    NewNameDropsPrefix("buyer_buyer_x.json");
    NewNameDropsPrefix("buyer_x.json");
  }

  /** A prefixed address file is renamed to the file the scrapers use for that address. */
  lemma RenameGivesAddressFile(address: string)
    ensures NewName("buyer_" + AddressFileName(address)) == Some(AddressFileName(address))
  {
    var name := "buyer_" + AddressFileName(address);
    assert name[..6] == "buyer_";
    assert name[|name| - 5..] == ".json";
    NewNameDropsPrefix(name);
    assert name[6..] == AddressFileName(address);
  }
}
