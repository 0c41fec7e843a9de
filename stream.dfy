/** The specification of the driver's filtered iteration: which currency properties a
    pass over the stored source records yields for a given allow-list. */
module PropertyStream {

  /** A currency rate as built by a provider from one source record. */
  datatype Property = Property(code: string, rate: real)

  /** The filter of the `properties` loop: a property is yielded when its rate is not
      exactly zero and, if the allow-list is non-empty, its code is a key of it. */
  predicate Accepted(p: Property, allowed: map<string, int>)
  {
    p.rate != 0.0 && (allowed == map[] || p.code in allowed)
  }

  /** The properties yielded for `records`, in order: each record mapped through
      `create`, then kept when it is accepted. */
  function Select<R>(records: seq<R>, create: R -> Property, allowed: map<string, int>): (r: seq<Property>)
    ensures |r| <= |records|
    ensures forall p :: p in r ==> Accepted(p, allowed)
  {
    if records == [] then []
    else
      var p := create(records[|records| - 1]);
      Select(records[..|records| - 1], create, allowed) + (if Accepted(p, allowed) then [p] else [])
  }

  /** The positions in `records` whose properties are accepted, in increasing order. */
  ghost function Kept<R>(records: seq<R>, create: R -> Property, allowed: map<string, int>): seq<nat>
  {
    if records == [] then []
    else
      Kept(records[..|records| - 1], create, allowed)
      + (if Accepted(create(records[|records| - 1]), allowed) then [|records| - 1] else [])
  }

  /** `Select` is exactly the sub-sequence of the mapped records at the accepted
      positions: one output per accepted record, in the records' order, none for any
      other record. */
  lemma {:induction false} SelectIsSubsequence<R>(records: seq<R>, create: R -> Property, allowed: map<string, int>)
    ensures |Kept(records, create, allowed)| == |Select(records, create, allowed)|
    ensures forall k :: 0 <= k < |Kept(records, create, allowed)| ==>
      Kept(records, create, allowed)[k] < |records| &&
      Select(records, create, allowed)[k] == create(records[Kept(records, create, allowed)[k]])
    ensures forall k, l :: 0 <= k < l < |Kept(records, create, allowed)| ==>
      Kept(records, create, allowed)[k] < Kept(records, create, allowed)[l]
    ensures forall j :: 0 <= j < |records| ==>
      (j in Kept(records, create, allowed) <==> Accepted(create(records[j]), allowed))
  {
    if records != [] {
      var n := |records|;
      var init := records[..n - 1];
      SelectIsSubsequence(init, create, allowed);
      var idx, r := Kept(init, create, allowed), Select(init, create, allowed);
      var p := create(records[n - 1]);
      var extra := if Accepted(p, allowed) then [n - 1] else [];
      var out := if Accepted(p, allowed) then [p] else [];
      var idx', r' := Kept(records, create, allowed), Select(records, create, allowed);
      assert idx' == idx + extra;
      assert r' == r + out;
      forall k | 0 <= k < |idx'|
        ensures idx'[k] < n && r'[k] == create(records[idx'[k]])
      {
        if k < |idx| {
          assert idx'[k] == idx[k] && r'[k] == r[k];
          assert init[idx[k]] == records[idx[k]];
        }
      }
      forall k, l | 0 <= k < l < |idx'|
        ensures idx'[k] < idx'[l]
      {
        if l < |idx| {
          assert idx'[k] == idx[k] && idx'[l] == idx[l];
        } else {
          assert idx'[k] == idx[k] < n - 1;
        }
      }
      forall j | 0 <= j < n
        ensures j in idx' <==> Accepted(create(records[j]), allowed)
      {
        if j < n - 1 {
          assert init[j] == records[j];
          assert j in idx' <==> j in idx;
        }
      }
    }
  }

  /** With an empty allow-list only the zero-rate test applies: a record's property is
      yielded exactly when its rate is not zero. */
  lemma EmptyAllowList<R>(records: seq<R>, create: R -> Property)
    ensures forall j :: 0 <= j < |records| ==>
      (j in Kept(records, create, map[]) <==> create(records[j]).rate != 0.0)
  {
    SelectIsSubsequence(records, create, map[]);
  }

  /** Filtering is done record by record: the output for a concatenation is the
      concatenation of the outputs. */
  lemma {:induction false} SelectAppend<R>(a: seq<R>, b: seq<R>, create: R -> Property, allowed: map<string, int>)
    ensures Select(a + b, create, allowed) == Select(a, create, allowed) + Select(b, create, allowed)
  {
    if b == [] {
      assert a + b == a;
    } else {
      var n := |b|;
      assert (a + b)[..|a + b| - 1] == a + b[..n - 1];
      assert (a + b)[|a + b| - 1] == b[n - 1];
      SelectAppend(a, b[..n - 1], create, allowed);
    }
  }

  /** Only the keys of the allow-list matter, never the marker values stored under them. */
  lemma {:induction false} SelectAllowListKeys<R>(records: seq<R>, create: R -> Property, allowed: map<string, int>, other: map<string, int>)
    requires allowed.Keys == other.Keys
    ensures Select(records, create, allowed) == Select(records, create, other)
  {
    assert allowed == map[] <==> other == map[] by {
      if allowed == map[] { assert other.Keys == {}; }
      if other == map[] { assert allowed.Keys == {}; }
    }
    if records != [] {
      SelectAllowListKeys(records[..|records| - 1], create, allowed, other);
    }
  }

  function Identity(p: Property): Property
  {
    p
  }

  /** Whatever was yielded passes the same filter again unchanged. */
  lemma {:induction false} SelectStable<R>(records: seq<R>, create: R -> Property, allowed: map<string, int>)
    ensures Select(Select(records, create, allowed), Identity, allowed) == Select(records, create, allowed)
  {
    if records != [] {
      var n := |records|;
      var head := Select(records[..n - 1], create, allowed);
      var p := create(records[n - 1]);
      var tail := if Accepted(p, allowed) then [p] else [];
      SelectStable(records[..n - 1], create, allowed);
      SelectAppend(head, tail, Identity, allowed);
      if Accepted(p, allowed) {
        assert tail[..0] == [];
      }
    }
  }

  /** Three records, one of them with a zero rate, filtered by a two-code allow-list. */
  lemma ExampleStream()
    ensures Select([Property("EUR", 25.0), Property("USD", 0.0), Property("CZK", 23.5)],
                   Identity, map["EUR" := 1, "CZK" := 1])
         == [Property("EUR", 25.0), Property("CZK", 23.5)]
  {
  }
}
