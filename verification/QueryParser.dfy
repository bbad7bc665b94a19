/** HttpConnection::pre_parse_get_params (src/HttpConnection.cpp): the loop that takes the
    query string apart, and what it means. */
module QueryParser {
  import opened Options
  import opened UrlCodec

  const AMP: Byte := 38
  const EQ: Byte := 61
  const QMARK: Byte := 63

  /** std::string::find for one byte; the length stands for npos. */
  function Find(s: Bytes, b: Byte): (pos: nat)
    ensures pos <= |s| && b !in s[..pos]
    ensures pos < |s| ==> s[pos] == b
    ensures pos == |s| <==> b !in s
  {
    if s == [] || s[0] == b then 0 else
      var pos := 1 + Find(s[1..], b);
      assert s[..pos] == [s[0]] + s[1..][..pos - 1] && s == [s[0]] + s[1..];
      pos
  }

  /** The pieces between separators; always at least one. */
  function Split(s: Bytes, sep: Byte): (pieces: seq<Bytes>)
    ensures |pieces| > 0
    decreases |s|
  {
    var pos := Find(s, sep);
    if pos == |s| then [s] else [s[..pos]] + Split(s[pos + 1..], sep)
  }

  function Join(pieces: seq<Bytes>, sep: Byte): Bytes {
    if pieces == [] then [] else if |pieces| == 1 then pieces[0] else pieces[0] + [sep] + Join(pieces[1..], sep)
  }

  /** The raw key and value of a piece; none without an equals sign. */
  function PairOf(piece: Bytes): Option<(Bytes, Bytes)> {
    var pos := Find(piece, EQ);
    if pos == |piece| then None else Some((piece[..pos], piece[pos + 1..]))
  }

  type Params = map<Bytes, Bytes>

  function Store(params: Params, piece: Bytes): Params {
    match PairOf(piece)
    case Some((k, v)) => params[Encode(k) := Encode(v)]
    case None => params
  }

  function StoreAll(params: Params, pieces: seq<Bytes>): Params
    decreases |pieces|
  {
    if pieces == [] then params else StoreAll(Store(params, pieces[0]), pieces[1..])
  }

  /** One round of the erase loop: store the piece before the separator, keep the rest. */
  lemma StoreFirst(params: Params, s: Bytes)
    requires AMP in s
    ensures var pos := Find(s, AMP);
      StoreAll(params, Split(s, AMP)) == StoreAll(Store(params, s[..pos]), Split(s[pos + 1..], AMP))
  {
    var pos := Find(s, AMP);
    StoreCons(params, s[..pos], Split(s[pos + 1..], AMP));
  }

  lemma StoreCons(params: Params, piece: Bytes, rest: seq<Bytes>)
    ensures StoreAll(params, [piece] + rest) == StoreAll(Store(params, piece), rest)
  {
    assert ([piece] + rest)[1..] == rest;
  }

  /** The last piece needs no case of its own: an empty one stores nothing. */
  lemma StoreLast(params: Params, s: Bytes)
    requires AMP !in s
    ensures StoreAll(params, Split(s, AMP)) == Store(params, s)
    ensures s == [] ==> Store(params, s) == params
  {
    assert [s][1..] == [];
  }

  /** What a target comes to, from the parameters there were before. */
  function Parsed(before: Params, target: Bytes): (Bytes, Params) {
    var pos := Find(target, QMARK);
    if pos == |target| then (target, before)
    else (target[..pos], StoreAll(before, Split(target[pos + 1..], AMP)))
  }

  class HttpConnection {
    const target: Bytes        // request_.target()
    var getUrl: Bytes          // get_url
    var getParams: Params      // get_params

    constructor (target: Bytes)
      ensures this.target == target && getUrl == [] && getParams == map[]
    {
      this.target, getUrl, getParams := target, [], map[];
    }

    /** The part before the first question mark becomes the URL; the rest is taken apart. */
    method PreParseGetParams()
      modifies this
      ensures (getUrl, getParams) == Parsed(old(getParams), target)
      ensures QMARK !in target ==> getUrl == target && getParams == old(getParams)
      ensures QMARK in target ==> QMARK !in getUrl && getUrl + [QMARK] <= target
      ensures QMARK in target ==> getParams == StoreAll(old(getParams), Split(target[|getUrl| + 1..], AMP))
    {
      var queryPos := Find(target, QMARK);
      if queryPos == |target| {
        getUrl := target;
        return;
      }
      getUrl := target[..queryPos];
      ParseQuery(target[queryPos + 1..]);
    }

    /** The erase loop, then the last piece. */
    method ParseQuery(query: Bytes)
      modifies this`getParams
      ensures getParams == StoreAll(old(getParams), Split(query, AMP))
    {
      var queryString := query;
      var pos := Find(queryString, AMP);
      while pos != |queryString|
        invariant pos == Find(queryString, AMP)
        invariant StoreAll(getParams, Split(queryString, AMP)) == StoreAll(old(getParams), Split(query, AMP))
        decreases |queryString|
      {
        StoreFirst(getParams, queryString);
        StorePiece(queryString[..pos]);
        queryString := queryString[pos + 1..];
        pos := Find(queryString, AMP);
      }
      StoreLast(getParams, queryString);
      if queryString != [] {
        StorePiece(queryString);
      }
    }

    /** What both the loop and the special case of the last piece do with a piece. */
    method StorePiece(piece: Bytes)
      modifies this`getParams
      ensures getParams == Store(old(getParams), piece)
    {
      var eqPos := Find(piece, EQ);
      if eqPos != |piece| {
        var key := UrlEncode(piece[..eqPos]);
        var value := UrlEncode(piece[eqPos + 1..]);
        getParams := getParams[key := value];
      }
    }
  }

  // ----- Split is the only way to cut at the separator -----

  predicate Free(s: Bytes, sep: Byte) { sep !in s }

  predicate AllFree(pieces: seq<Bytes>, sep: Byte) { forall i :: 0 <= i < |pieces| ==> Free(pieces[i], sep) }

  lemma JoinCons(piece: Bytes, rest: seq<Bytes>, sep: Byte)
    requires |rest| > 0
    ensures Join([piece] + rest, sep) == piece + [sep] + Join(rest, sep)
    ensures Free(piece, sep) && AllFree(rest, sep) ==> AllFree([piece] + rest, sep)
  {
    assert ([piece] + rest)[1..] == rest;
  }

  lemma CutAt(s: Bytes, pos: nat)
    requires pos < |s|
    ensures s == s[..pos] + [s[pos]] + s[pos + 1..]
  {
  }

  lemma {:induction false} SplitJoins(s: Bytes, sep: Byte)
    ensures Join(Split(s, sep), sep) == s && AllFree(Split(s, sep), sep)
    decreases |s|
  {
    var pos := Find(s, sep);
    if pos == |s| {
      SplitOne(s, sep);
    } else {
      SplitJoins(s[pos + 1..], sep);
      JoinCons(s[..pos], Split(s[pos + 1..], sep), sep);
      CutAt(s, pos);
    }
  }

  lemma {:induction false} FindAfter(head: Bytes, sep: Byte, rest: Bytes)
    requires sep !in head
    ensures Find(head + [sep] + rest, sep) == |head|
  {
    if head != [] {
      FindAfter(head[1..], sep, rest);
      assert (head + [sep] + rest)[1..] == head[1..] + [sep] + rest;
    }
  }

  lemma SplitAfter(head: Bytes, sep: Byte, rest: Bytes)
    requires sep !in head
    ensures Split(head + [sep] + rest, sep) == [head] + Split(rest, sep)
  {
    var s := head + [sep] + rest;
    FindAfter(head, sep, rest);
    assert s[..|head|] == head;
    assert s[|head| + 1..] == rest;
  }

  lemma FreeTail(pieces: seq<Bytes>, sep: Byte)
    requires |pieces| > 1 && AllFree(pieces, sep)
    ensures sep !in pieces[0] && AllFree(pieces[1..], sep)
  {
    assert Free(pieces[0], sep);
    forall i | 0 <= i < |pieces| - 1 ensures Free(pieces[1..][i], sep) {
      assert Free(pieces[i + 1], sep);
    }
  }

  lemma SplitOne(piece: Bytes, sep: Byte)
    requires Free(piece, sep)
    ensures Split(piece, sep) == [piece]
  {
  }

  lemma {:induction false} JoinSplits(pieces: seq<Bytes>, sep: Byte)
    requires |pieces| > 0 && AllFree(pieces, sep)
    ensures Split(Join(pieces, sep), sep) == pieces
    decreases |pieces|
  {
    if |pieces| == 1 {
      SplitOne(pieces[0], sep);
    } else {
      var head, tail := pieces[0], pieces[1..];
      FreeTail(pieces, sep);
      JoinSplits(tail, sep);
      SplitAfter(head, sep, Join(tail, sep));
      assert pieces == [head] + tail;
    }
  }

  // ----- the map: nothing merged, last occurrence wins -----

  function RawStore(raw: Params, piece: Bytes): Params {
    match PairOf(piece)
    case Some((k, v)) => raw[k := v]
    case None => raw
  }

  /** The same fold on the raw keys and values. */
  function RawAll(raw: Params, pieces: seq<Bytes>): Params
    decreases |pieces|
  {
    if pieces == [] then raw else RawAll(RawStore(raw, pieces[0]), pieces[1..])
  }

  /** `params` is `raw` with every key and value encoded. */
  ghost predicate Encoded(raw: Params, params: Params) {
    && (forall k :: k in raw ==> Encode(k) in params && params[Encode(k)] == Encode(raw[k]))
    && (forall e :: e in params ==> Decode(e).Some? && Decode(e).value in raw && Encode(Decode(e).value) == e)
  }

  lemma EncodedStore(raw: Params, params: Params, piece: Bytes)
    requires Encoded(raw, params)
    ensures Encoded(RawStore(raw, piece), Store(params, piece))
  {
    match PairOf(piece)
    case None =>
    case Some((key, v)) =>
      var raw', params' := raw[key := v], params[Encode(key) := Encode(v)];
      DecodeEncode(key);
      forall k | k in raw' ensures Encode(k) in params' && params'[Encode(k)] == Encode(raw'[k]) {
        EncodeInjective(k, key);
      }
  }

  lemma {:induction false} EncodedAll(raw: Params, params: Params, pieces: seq<Bytes>)
    requires Encoded(raw, params)
    ensures Encoded(RawAll(raw, pieces), StoreAll(params, pieces))
    decreases |pieces|
  {
    if pieces != [] {
      EncodedStore(raw, params, pieces[0]);
      EncodedAll(RawStore(raw, pieces[0]), Store(params, pieces[0]), pieces[1..]);
    }
  }

  /** Encoding relates the two key sets one to one, so the maps have the same size. */
  lemma {:induction false} SameSize(keys: set<Bytes>, codes: set<Bytes>)
    requires forall k :: k in keys ==> Encode(k) in codes
    requires forall e :: e in codes ==> exists k :: k in keys && Encode(k) == e
    ensures |keys| == |codes|
  {
    if k :| k in keys {
      RemovePair(keys, codes, k);
      SameSize(keys - {k}, codes - {Encode(k)});
      assert keys == (keys - {k}) + {k} && codes == (codes - {Encode(k)}) + {Encode(k)};
    } else {
      assert codes == {};
    }
  }

  /** The relation survives taking away a key and its code. */
  lemma RemovePair(keys: set<Bytes>, codes: set<Bytes>, k: Bytes)
    requires k in keys
    requires forall k :: k in keys ==> Encode(k) in codes
    requires forall e :: e in codes ==> exists k :: k in keys && Encode(k) == e
    ensures forall j :: j in keys - {k} ==> Encode(j) in codes - {Encode(k)}
    ensures forall e :: e in codes - {Encode(k)} ==> exists j :: j in keys - {k} && Encode(j) == e
  {
    forall j | j in keys - {k} ensures Encode(j) in codes - {Encode(k)} {
      EncodeInjective(j, k);
    }
    forall e | e in codes - {Encode(k)} ensures exists j :: j in keys - {k} && Encode(j) == e {
      var j :| j in keys && Encode(j) == e;
      assert j in keys - {k};
    }
  }

  predicate HasKey(piece: Bytes, k: Bytes) { PairOf(piece).Some? && PairOf(piece).value.0 == k }

  /** The last piece with key `k`, if any, decides its value. */
  ghost predicate LastWins(raw: Params, before: Params, pieces: seq<Bytes>, k: Bytes) {
    || (exists i :: 0 <= i < |pieces| && HasKey(pieces[i], k)
                 && k in raw && raw[k] == PairOf(pieces[i]).value.1
                 && forall j :: i < j < |pieces| ==> !HasKey(pieces[j], k))
    || ((forall j :: 0 <= j < |pieces| ==> !HasKey(pieces[j], k))
        && (k in raw <==> k in before) && (k in raw ==> raw[k] == before[k]))
  }

  lemma {:induction false} RawLastWins(before: Params, pieces: seq<Bytes>, k: Bytes)
    ensures LastWins(RawAll(before, pieces), before, pieces, k)
    decreases |pieces|
  {
    if pieces != [] {
      var mid := RawStore(before, pieces[0]);
      var raw := RawAll(before, pieces);
      RawLastWins(mid, pieces[1..], k);
      if i :| 0 <= i < |pieces| - 1 && HasKey(pieces[1..][i], k)
              && k in raw && raw[k] == PairOf(pieces[1..][i]).value.1
              && forall j :: i < j < |pieces| - 1 ==> !HasKey(pieces[1..][j], k) {
        assert HasKey(pieces[i + 1], k);
        forall j | i + 1 < j < |pieces| ensures !HasKey(pieces[j], k) {
          assert pieces[j] == pieces[1..][j - 1];
        }
      } else {
        forall j | 1 <= j < |pieces| ensures !HasKey(pieces[j], k) {
          assert pieces[j] == pieces[1..][j - 1];
        }
        if HasKey(pieces[0], k) {
          assert k in raw && raw[k] == PairOf(pieces[0]).value.1;
        } else {
          assert forall j :: 0 <= j < |pieces| ==> !HasKey(pieces[j], k);
        }
      }
    }
  }

  lemma KeysFromPieces(pieces: seq<Bytes>, k: Bytes)
    ensures LastWins(RawAll(map[], pieces), map[], pieces, k)
    ensures k in RawAll(map[], pieces) <==> exists i :: 0 <= i < |pieces| && HasKey(pieces[i], k)
  {
    RawLastWins(map[], pieces, k);
  }

  lemma ValuesDecode(raw: Params, params: Params, e: Bytes)
    requires Encoded(raw, params) && e in params
    ensures Decode(e).Some? && Decode(e).value in raw && Decode(params[e]) == Some(raw[Decode(e).value])
  {
    DecodeEncode(raw[Decode(e).value]);
  }

  /** Parser and encoder together never merge parameters. From an empty map the result has
      one entry for each distinct raw key of the pieces with an equals sign; decoding its
      keys and values gives back the last value of each. */
  lemma NothingMerged(query: Bytes)
    ensures var pieces := Split(query, AMP);
      var raw, params := RawAll(map[], pieces), StoreAll(map[], pieces);
      && (forall k :: k in raw <==> exists i :: 0 <= i < |pieces| && HasKey(pieces[i], k))
      && (forall k :: LastWins(raw, map[], pieces, k))
      && |params| == |raw| && Encoded(raw, params)
      && (forall e :: e in params ==> Decode(e).Some? && Decode(params[e]) == Some(raw[Decode(e).value]))
  {
    var pieces := Split(query, AMP);
    var raw, params := RawAll(map[], pieces), StoreAll(map[], pieces);
    EncodedAll(map[], map[], pieces);
    assert |params| == |raw| by {
      SameSize(raw.Keys, params.Keys);
      assert |raw| == |raw.Keys| && |params| == |params.Keys|;
    }
    forall k
      ensures LastWins(raw, map[], pieces, k)
      ensures k in raw <==> exists i :: 0 <= i < |pieces| && HasKey(pieces[i], k)
    {
      KeysFromPieces(pieces, k);
    }
    forall e | e in params ensures Decode(params[e]) == Some(raw[Decode(e).value]) {
      ValuesDecode(raw, params, e);
    }
  }

  // ----- printing and parsing -----

  function PrintPair(p: (Bytes, Bytes)): Bytes { p.0 + [EQ] + p.1 }

  function PrintAll(pairs: seq<(Bytes, Bytes)>): (r: seq<Bytes>)
    ensures |r| == |pairs|
  {
    if pairs == [] then [] else [PrintPair(pairs[0])] + PrintAll(pairs[1..])
  }

  function Print(pairs: seq<(Bytes, Bytes)>): Bytes { Join(PrintAll(pairs), AMP) }

  function MapOf(m: Params, pairs: seq<(Bytes, Bytes)>): Params
    decreases |pairs|
  {
    if pairs == [] then m else MapOf(m[pairs[0].0 := pairs[0].1], pairs[1..])
  }

  /** Keys without & and =, values without &. */
  predicate Printable(p: (Bytes, Bytes)) { AMP !in p.0 && EQ !in p.0 && AMP !in p.1 }

  lemma PairOfPrinted(p: (Bytes, Bytes))
    requires Printable(p)
    ensures PairOf(PrintPair(p)) == Some(p) && Free(PrintPair(p), AMP)
  {
    FindAfter(p.0, EQ, p.1);
    var piece := PrintPair(p);
    assert piece[..|p.0|] == p.0 && piece[|p.0| + 1..] == p.1;
  }

  /** A piece is cut at its first equals sign and nowhere else; without one it is no pair. */
  lemma PairOfIs(piece: Bytes, k: Bytes, v: Bytes)
    ensures PairOf(piece) == None <==> EQ !in piece
    ensures PairOf(piece) == Some((k, v)) <==> EQ !in k && piece == k + [EQ] + v
  {
    if EQ !in k && piece == k + [EQ] + v {
      FindAfter(k, EQ, v);
      assert piece[..|k|] == k && piece[|k| + 1..] == v;
    }
    if PairOf(piece) == Some((k, v)) {
      CutAt(piece, Find(piece, EQ));
    }
  }

  lemma {:induction false} PrintedPieces(m: Params, pairs: seq<(Bytes, Bytes)>)
    requires forall i :: 0 <= i < |pairs| ==> Printable(pairs[i])
    ensures AllFree(PrintAll(pairs), AMP)
    ensures RawAll(m, PrintAll(pairs)) == MapOf(m, pairs)
    decreases |pairs|
  {
    if pairs != [] {
      PairOfPrinted(pairs[0]);
      assert forall i :: 0 <= i < |pairs| - 1 ==> pairs[1..][i] == pairs[i + 1];
      PrintedPieces(m[pairs[0].0 := pairs[0].1], pairs[1..]);
      assert PrintAll(pairs)[1..] == PrintAll(pairs[1..]);
    }
  }

  /** Printing pairs as k=v joined by & and parsing gives exactly their map. */
  lemma PrintThenParse(pairs: seq<(Bytes, Bytes)>)
    requires forall i :: 0 <= i < |pairs| ==> Printable(pairs[i])
    ensures RawAll(map[], Split(Print(pairs), AMP)) == MapOf(map[], pairs)
    ensures Encoded(MapOf(map[], pairs), StoreAll(map[], Split(Print(pairs), AMP)))
  {
    PrintedPieces(map[], pairs);
    if pairs == [] {
      assert Split([], AMP)[1..] == [];
    } else {
      JoinSplits(PrintAll(pairs), AMP);
    }
    EncodedAll(map[], map[], Split(Print(pairs), AMP));
  }

  /** What precedes the first question mark is the URL, what follows it is the query. */
  lemma ParsedAt(before: Params, url: Bytes, query: Bytes)
    requires QMARK !in url
    ensures Parsed(before, url) == (url, before)
    ensures Parsed(before, url + [QMARK] + query) == (url, StoreAll(before, Split(query, AMP)))
  {
    var target := url + [QMARK] + query;
    FindAfter(url, QMARK, query);
    assert target[..|url|] == url && target[|url| + 1..] == query;
  }

  /** A target printed from a URL and pairs is taken apart into that URL and their map. */
  lemma PrintThenParseTarget(url: Bytes, pairs: seq<(Bytes, Bytes)>)
    requires QMARK !in url && forall i :: 0 <= i < |pairs| ==> Printable(pairs[i])
    ensures var (getUrl, getParams) := Parsed(map[], url + [QMARK] + Print(pairs));
      getUrl == url && Encoded(MapOf(map[], pairs), getParams)
  {
    ParsedAt(map[], url, Print(pairs));
    PrintThenParse(pairs);
  }
}
