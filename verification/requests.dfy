/**
 * The request the composer builds (DataDispatchRequest), the snapshot it is
 * restored from (DashboardState), and the key/value tuples both carry.
 */
module Requests {
  import opened Wrappers
  import opened MediaTypes

  /** One row of a form or URL-encoded editor: a key and a value (or a file path). */
  datatype Field = Field(key: string, value: string)

  /** A tuple map: key to value, or key to file path for file tuples. */
  type Tuples = map<string, string>

  /**
   * A request as the body tab fills it in. A field left unset by the
   * composer is None.
   */
  datatype DataDispatchRequest = DataDispatchRequest(
    requestType: string,
    contentType: Option<string>,
    body: Option<string>,
    stringTuples: Option<Tuples>,
    fileTuples: Option<Tuples>)

  /**
   * The snapshot a composer is restored from. The content type and the
   * two tuple maps may be null.
   */
  datatype DashboardState = DashboardState(
    contentType: Option<string>,
    body: string,
    stringTuples: Option<Tuples>,
    fileTuples: Option<Tuples>)

  /**
   * The body shape a request's content type calls for: a scalar body for
   * raw and binary content, string and file tuples for multipart, string
   * tuples only for URL-encoded, and nothing at all without a content type.
   */
  predicate WellShaped(r: DataDispatchRequest) {
    match r.contentType
    case None =>
      r.body.None? && r.stringTuples.None? && r.fileTuples.None?
    case Some(ct) =>
      if IsRawMediaType(ct) || ct == ApplicationOctetStream then
        r.body.Some? && r.stringTuples.None? && r.fileTuples.None?
      else if ct == MultipartFormData then
        r.body.None? && r.stringTuples.Some? && r.fileTuples.Some?
      else if ct == ApplicationFormUrlencoded then
        r.body.None? && r.stringTuples.Some? && r.fileTuples.None?
      else
        false
  }

  /** A snapshot carries a request when it holds the request's content type and every body part the request sets. */
  predicate Carries(ds: DashboardState, r: DataDispatchRequest) {
    && ds.contentType == r.contentType
    && (r.body.Some? ==> ds.body == r.body.value)
    && (r.stringTuples.Some? ==> ds.stringTuples == r.stringTuples)
    && (r.fileTuples.Some? ==> ds.fileTuples == r.fileTuples)
  }

  /** Row i is the last row with its key. */
  predicate LastWithKey(rows: seq<Field>, i: int)
    requires 0 <= i < |rows|
  {
    forall j | i < j < |rows| :: rows[j].key != rows[i].key
  }

  /** The keys of an editor's rows. */
  function KeysOf(rows: seq<Field>): set<string> {
    set i | 0 <= i < |rows| :: rows[i].key
  }

  /**
   * The tuple map an editor's rows stand for: every row is put into the
   * map in order, so a later row overrides an earlier one with the same key.
   */
  function TuplesOf(rows: seq<Field>): (t: Tuples)
    ensures t.Keys == KeysOf(rows)
    ensures forall i | 0 <= i < |rows| && LastWithKey(rows, i) :: t[rows[i].key] == rows[i].value
  {
    if rows == [] then map[]
    else
      var init, last := rows[..|rows| - 1], rows[|rows| - 1];
      assert KeysOf(rows) == KeysOf(init) + {last.key} by {
        assert forall i | 0 <= i < |init| :: init[i] == rows[i];
      }
      assert forall i | 0 <= i < |init| && LastWithKey(rows, i) :: LastWithKey(init, i);
      TuplesOf(init)[last.key := last.value]
  }

  /** Rows appended after others override them key by key. */
  lemma {:induction false} TuplesOfAppend(a: seq<Field>, b: seq<Field>)
    ensures TuplesOf(a + b) == TuplesOf(a) + TuplesOf(b)
  {
    if b == [] {
      assert a + b == a;
    } else {
      var init, last := b[..|b| - 1], b[|b| - 1];
      assert (a + b)[..|a + b| - 1] == a + init;
      TuplesOfAppend(a, init);
    }
  }

  /**
   * s lists the entries of m, each exactly once, in some order: what a loop
   * over a Java map's entrySet() visits.
   */
  predicate IsEnumeration(s: seq<Field>, m: Tuples) {
    && (forall i | 0 <= i < |s| :: s[i].key in m && m[s[i].key] == s[i].value)
    && (forall k | k in m :: exists i | 0 <= i < |s| :: s[i].key == k)
    && (forall i, j | 0 <= i < j < |s| :: s[i].key != s[j].key)
  }

  /** Putting the entries of a map back into a map, in any order, rebuilds it. */
  lemma TuplesOfEnumeration(s: seq<Field>, m: Tuples)
    requires IsEnumeration(s, m)
    ensures TuplesOf(s) == m
  {
    var t := TuplesOf(s);
    forall k | k in m
      ensures k in t && t[k] == m[k]
    {
      var i :| 0 <= i < |s| && s[i].key == k;
      assert LastWithKey(s, i);
    }
    assert t.Keys == m.Keys by {
      assert forall k | k in t :: exists i | 0 <= i < |s| :: s[i].key == k;
    }
  }

  /**
   * The entries of m in an unspecified order (a HashMap's iteration order
   * is not part of its contract).
   */
  method Entries(m: Tuples) returns (s: seq<Field>)
    ensures IsEnumeration(s, m)
  {
    s := [];
    var rest := m;
    while rest != map[]
      invariant forall k | k in rest :: k in m && rest[k] == m[k]
      invariant forall i | 0 <= i < |s| :: s[i].key in m && s[i].key !in rest && m[s[i].key] == s[i].value
      invariant forall k | k in m :: k in rest || exists i | 0 <= i < |s| :: s[i].key == k
      invariant forall i, j | 0 <= i < j < |s| :: s[i].key != s[j].key
      decreases rest.Keys
    {
      var k :| k in rest;
      ghost var s0 := s;
      s := s + [Field(k, rest[k])];
      rest := rest - {k};
      forall k' | k' in m && k' !in rest
        ensures exists i | 0 <= i < |s| :: s[i].key == k'
      {
        if k' == k {
          assert s[|s| - 1].key == k';
        } else {
          var i :| 0 <= i < |s0| && s0[i].key == k';
          assert s[i].key == k';
        }
      }
    }
  }
}
