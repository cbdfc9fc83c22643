/**
 * Query strings as `URLSearchParams` builds them from an object literal: the
 * entries in the literal's order, each written `name=value` after
 * form-urlencoding, joined with `&`. The character-level encoding is a
 * parameter (`escape`); `Decode` is a reference reader of such strings, the
 * partner against which every URL builder of the model is checked.
 */
module UrlQuery {
  import opened Wrappers
  import opened Text

  /** One name/value entry of a query. */
  type Param = (string, string)

  /**
   * Form-urlencoding never leaves `&` or `=` bare in an encoded name or value,
   * and `unescape` undoes it.
   */
  ghost predicate FormSafe(escape: string -> string, unescape: string -> string)
  {
    forall s :: '&' !in escape(s) && '=' !in escape(s) && unescape(escape(s)) == s
  }

  function EncodePair(p: Param, escape: string -> string): string
  {
    escape(p.0) + "=" + escape(p.1)
  }

  function EncodePairs(ps: seq<Param>, escape: string -> string): (r: seq<string>)
    ensures |r| == |ps|
    ensures forall i :: 0 <= i < |ps| ==> r[i] == EncodePair(ps[i], escape)
  {
    if ps == [] then [] else [EncodePair(ps[0], escape)] + EncodePairs(ps[1..], escape)
  }

  /** `new URLSearchParams(ps).toString()`. */
  function Encode(ps: seq<Param>, escape: string -> string): string
  {
    Join(EncodePairs(ps, escape), '&')
  }

  /** The request URL `${baseUrl}?${params.toString()}`. */
  function Url(baseUrl: string, ps: seq<Param>, escape: string -> string): string
  {
    baseUrl + "?" + Encode(ps, escape)
  }

  function DecodePair(s: string, unescape: string -> string): Option<Param>
  {
    var kv := Split(s, '=');
    if |kv| == 2 then Some((unescape(kv[0]), unescape(kv[1]))) else None
  }

  function DecodePairs(parts: seq<string>, unescape: string -> string): Option<seq<Param>>
  {
    if parts == [] then Some([])
    else
      match DecodePair(parts[0], unescape)
      case None => None
      case Some(p) =>
        match DecodePairs(parts[1..], unescape)
        case None => None
        case Some(rest) => Some([p] + rest)
  }

  /** Reads a query string back into its entries; `None` when it is malformed. */
  function Decode(q: string, unescape: string -> string): Option<seq<Param>>
  {
    if q == "" then Some([]) else DecodePairs(Split(q, '&'), unescape)
  }

  /** The entries of a URL built on `baseUrl`; `None` when it is not such a URL. */
  function ReadUrl(url: string, baseUrl: string, unescape: string -> string): Option<seq<Param>>
  {
    var prefix := baseUrl + "?";
    if |prefix| <= |url| && url[..|prefix|] == prefix then Decode(url[|prefix|..], unescape)
    else None
  }

  /** The names of the entries, in order. */
  function Keys(ps: seq<Param>): (ks: seq<string>)
    ensures |ks| == |ps|
    ensures forall i :: 0 <= i < |ps| ==> ks[i] == ps[i].0
  {
    if ps == [] then [] else [ps[0].0] + Keys(ps[1..])
  }

  /** `URLSearchParams.get`: the value of the first entry named `key`. */
  function Lookup(ps: seq<Param>, key: string): (r: Option<string>)
    ensures r.None? <==> key !in Keys(ps)
  {
    if ps == [] then None
    else if ps[0].0 == key then Some(ps[0].1)
    else Lookup(ps[1..], key)
  }

  /** No name occurs twice. */
  predicate DistinctKeys(ps: seq<Param>)
  {
    forall i, j :: 0 <= i < j < |ps| ==> ps[i].0 != ps[j].0
  }

  /** With distinct names, the value read under an entry's name is that entry's value. */
  lemma {:induction false} LookupAt(ps: seq<Param>, i: nat)
    requires DistinctKeys(ps) && i < |ps|
    ensures Lookup(ps, ps[i].0) == Some(ps[i].1)
  {
    if i > 0 {
      LookupAt(ps[1..], i - 1);
    }
  }

  /** Each encoded entry is non-empty and free of `&`. */
  lemma EncodedPairsSeparable(ps: seq<Param>, escape: string -> string, unescape: string -> string)
    requires FormSafe(escape, unescape)
    ensures Separable(EncodePairs(ps, escape), '&')
    ensures forall i :: 0 <= i < |ps| ==> EncodePairs(ps, escape)[i] != ""
  {
    forall i | 0 <= i < |ps|
      ensures '&' !in EncodePairs(ps, escape)[i] && EncodePairs(ps, escape)[i] != ""
    {
      EncodedPairSafe(ps[i], escape, unescape);
    }
  }

  lemma EncodedPairSafe(p: Param, escape: string -> string, unescape: string -> string)
    requires FormSafe(escape, unescape)
    ensures '&' !in EncodePair(p, escape) && EncodePair(p, escape) != ""
  {
    var k, v := escape(p.0), escape(p.1);
    assert '&' !in k && '&' !in v;
    assert EncodePair(p, escape)[|k|] == '=';
  }

  /** Every encoded entry reads back as itself. */
  lemma DecodeEncodedPair(p: Param, escape: string -> string, unescape: string -> string)
    requires FormSafe(escape, unescape)
    ensures DecodePair(EncodePair(p, escape), unescape) == Some(p)
  {
    var parts := [escape(p.0), escape(p.1)];
    assert '=' !in parts[0] && '=' !in parts[1];
    SplitJoin(parts, '=');
    assert Join(parts, '=') == EncodePair(p, escape);
    assert unescape(escape(p.0)) == p.0 && unescape(escape(p.1)) == p.1;
  }

  lemma {:induction false} DecodeEncodedPairs(ps: seq<Param>, escape: string -> string, unescape: string -> string)
    requires FormSafe(escape, unescape)
    ensures DecodePairs(EncodePairs(ps, escape), unescape) == Some(ps)
  {
    if ps != [] {
      DecodeEncodedPair(ps[0], escape, unescape);
      DecodeEncodedPairs(ps[1..], escape, unescape);
      assert EncodePairs(ps, escape)[1..] == EncodePairs(ps[1..], escape);
      assert [ps[0]] + ps[1..] == ps;
    }
  }

  /** Round trip: the reference reader recovers exactly the entries, in order. */
  lemma DecodeEncode(ps: seq<Param>, escape: string -> string, unescape: string -> string)
    requires FormSafe(escape, unescape)
    ensures Decode(Encode(ps, escape), unescape) == Some(ps)
  {
    var pairs := EncodePairs(ps, escape);
    EncodedPairsSeparable(ps, escape, unescape);
    DecodeEncodedPairs(ps, escape, unescape);
    if ps != [] {
      JoinNonEmpty(pairs, '&');
      SplitJoin(pairs, '&');
    }
  }

  /** Round trip on a whole URL: the base is kept and the entries read back unchanged. */
  lemma UrlRoundTrip(baseUrl: string, ps: seq<Param>, escape: string -> string, unescape: string -> string)
    requires FormSafe(escape, unescape)
    ensures ReadUrl(Url(baseUrl, ps, escape), baseUrl, unescape) == Some(ps)
  {
    var url := Url(baseUrl, ps, escape);
    assert url[..|baseUrl + "?"|] == baseUrl + "?";
    assert url[|baseUrl + "?"|..] == Encode(ps, escape);
    DecodeEncode(ps, escape, unescape);
  }
}
