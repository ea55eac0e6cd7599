/** Query strings of the form `k1=v1&k2=v2&...`, written without any
    percent-encoding, and a reader that takes such a string apart again the
    way common query readers do, except that it does no percent-decoding:
    pieces between `&`, each split at its first `=`. */
module Query {
  import opened Results
  import opened Text

  type Param = (string, string)

  /** A parameter the reader gets back intact: no `&` anywhere and no `=`
      in the key (an `=` in the value is fine, since a piece is split at its
      first `=`). */
  predicate Clean(p: Param) {
    '&' !in p.0 && '=' !in p.0 && '&' !in p.1
  }

  /** The text `key=value` of one parameter. */
  function Field(p: Param): string {
    p.0 + "=" + p.1
  }

  function Fields(ps: seq<Param>): (fs: seq<string>)
    ensures |fs| == |ps|
    ensures forall i :: 0 <= i < |ps| ==> fs[i] == Field(ps[i])
  {
    seq(|ps|, i requires 0 <= i < |ps| => Field(ps[i]))
  }

  /** The parameters written one after the other, separated by `&`. */
  function JoinQuery(ps: seq<Param>): string {
    Join(Fields(ps), '&')
  }

  /** Five parameters written out: the shape of a fixed five-field query. */
  lemma JoinQueryFive(ps: seq<Param>)
    requires |ps| == 5
    ensures JoinQuery(ps) == ps[0].0 + "=" + ps[0].1 + "&" + ps[1].0 + "=" + ps[1].1 + "&"
      + ps[2].0 + "=" + ps[2].1 + "&" + ps[3].0 + "=" + ps[3].1 + "&" + ps[4].0 + "=" + ps[4].1
  {
    var fs := Fields(ps);
    assert fs == [fs[0]] + ([fs[1]] + ([fs[2]] + ([fs[3]] + [fs[4]])));
    JoinCons(fs[3], [fs[4]], '&');
    JoinCons(fs[2], [fs[3]] + [fs[4]], '&');
    JoinCons(fs[1], [fs[2]] + ([fs[3]] + [fs[4]]), '&');
    JoinCons(fs[0], [fs[1]] + ([fs[2]] + ([fs[3]] + [fs[4]])), '&');
  }

  /** Reads one `key=value` piece, splitting it at its first `=`; a piece
      without any `=` is unreadable. */
  function ParseParam(piece: string): (r: Option<Param>)
    ensures r.Some? ==> Field(r.value) == piece
    ensures r.Some? ==> '=' !in r.value.0
    ensures r.None? <==> '=' !in piece
  {
    var i := IndexOf(piece, '=');
    if i == |piece| then
      assert forall j :: 0 <= j < |piece| ==> piece[j] != '=';
      None
    else
      assert piece == piece[..i] + "=" + piece[i + 1..];
      assert forall j :: 0 <= j < i ==> piece[..i][j] != '=';
      Some((piece[..i], piece[i + 1..]))
  }

  function ParsePieces(pieces: seq<string>): (r: Option<seq<Param>>)
    ensures r.Some? ==> |r.value| == |pieces|
    ensures r.Some? ==> forall i :: 0 <= i < |pieces| ==> Field(r.value[i]) == pieces[i]
    ensures r.Some? ==> forall i :: 0 <= i < |pieces| ==> '=' !in r.value[i].0
  {
    if |pieces| == 0 then Some([])
    else
      match ParseParam(pieces[0])
      case None => None
      case Some(p) =>
        match ParsePieces(pieces[1..])
        case None => None
        case Some(rest) => Some([p] + rest)
  }

  /** Reads a query string back into its parameters, in order. */
  function ParseQuery(q: string): (r: Option<seq<Param>>)
    ensures r.Some? ==> forall i :: 0 <= i < |r.value| ==> Clean(r.value[i])
    ensures r.Some? ==> JoinQuery(r.value) == q
  {
    var pieces := Split(q, '&');
    var r := ParsePieces(pieces);
    if r.Some? then
      assert Fields(r.value) == pieces;
      assert forall i :: 0 <= i < |r.value| ==> '&' !in Field(r.value[i]);
      r
    else r
  }

  lemma ParseParamField(p: Param)
    requires '=' !in p.0
    ensures ParseParam(Field(p)) == Some(p)
  {
    IndexOfAfterFreePrefix(p.0, '=', p.1);
    var f := Field(p);
    assert f == p.0 + ['='] + p.1;
    assert f[..|p.0|] == p.0 && f[|p.0| + 1..] == p.1;
  }

  lemma {:induction false} ParsePiecesFields(ps: seq<Param>)
    requires forall i :: 0 <= i < |ps| ==> Clean(ps[i])
    ensures ParsePieces(Fields(ps)) == Some(ps)
    decreases |ps|
  {
    if |ps| > 0 {
      ParseParamField(ps[0]);
      assert Fields(ps)[1..] == Fields(ps[1..]);
      ParsePiecesFields(ps[1..]);
      assert ps == [ps[0]] + ps[1..];
    }
  }

  /** A non-empty parameter list is read back exactly from its query string
      if and only if no key or value contains `&` and no key contains `=`. */
  lemma ParseJoinQuery(ps: seq<Param>)
    requires |ps| >= 1
    ensures ParseQuery(JoinQuery(ps)) == Some(ps) <==> forall i :: 0 <= i < |ps| ==> Clean(ps[i])
  {
    if forall i :: 0 <= i < |ps| ==> Clean(ps[i]) {
      var fs := Fields(ps);
      forall i | 0 <= i < |fs| ensures '&' !in fs[i] {
        assert fs[i] == ps[i].0 + "=" + ps[i].1;
      }
      SplitJoin(fs, '&');
      ParsePiecesFields(ps);
    }
  }

  /** When every parameter after the first is clean, reading back succeeds
      exactly when the first one is clean too. */
  lemma ParseJoinQueryFirst(ps: seq<Param>)
    requires |ps| >= 1
    requires forall i :: 1 <= i < |ps| ==> Clean(ps[i])
    ensures ParseQuery(JoinQuery(ps)) == Some(ps) <==> Clean(ps[0])
  {
    ParseJoinQuery(ps);
  }
}
