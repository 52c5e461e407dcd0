/** The configuration documents the run script loads with `yaml.safe_load`,
    edits key by key and dumps again, and Python's rules for reading and
    assigning `config[k1][k2]...[kn]`. */
module Document {
  import opened Wrappers

  /** A loaded YAML value. Mapping keys are strings. */
  datatype Node =
    | Null
    | Bool(b: bool)
    | Int(i: int)
    | Str(s: string)
    | List(items: seq<Node>)
    | Map(entries: map<string, Node>)

  /** The sequence of keys in a chained subscript `config[k1][k2]...`. */
  type KeyPath = seq<string>

  /** Python truthiness, as used by `if config[...]:`. */
  predicate Truthy(n: Node) {
    match n
    case Null => false
    case Bool(b) => b
    case Int(i) => i != 0
    case Str(s) => s != ""
    case List(items) => items != []
    case Map(entries) => entries != map[]
  }

  /** Reading `n[p[0]][p[1]]...`: a missing key raises KeyError and
      subscripting anything but a mapping raises TypeError. */
  function Lookup(n: Node, p: KeyPath): Result<Node>
    decreases |p|
  {
    if p == [] then Ok(n)
    else if !n.Map? then Err(TypeError)
    else if p[0] !in n.entries then Err(KeyError(p[0]))
    else Lookup(n.entries[p[0]], p[1..])
  }

  /** The value at q exists and is a mapping. */
  predicate IsMapAt(n: Node, q: KeyPath) {
    Lookup(n, q).Ok? && Lookup(n, q).value.Map?
  }

  /** Every proper prefix of p (the empty path included) names a mapping. */
  predicate MapsAlong(n: Node, p: KeyPath) {
    forall k :: 0 <= k < |p| ==> IsMapAt(n, p[..k])
  }

  /** Neither path is a prefix of the other: writing at one never touches the other. */
  predicate Apart(p: KeyPath, q: KeyPath) {
    !(p <= q) && !(q <= p)
  }

  /** The statement `n[p[0]]...[p[|p|-1]] = v`: every key but the last must
      already be present, the last one is inserted or replaced. */
  function Assign(n: Node, p: KeyPath, v: Node): Result<Node>
    requires p != []
    decreases |p|
  {
    if !n.Map? then Err(TypeError)
    else if |p| == 1 then Ok(Map(n.entries[p[0] := v]))
    else if p[0] !in n.entries then Err(KeyError(p[0]))
    else
      var child :- Assign(n.entries[p[0]], p[1..], v);
      Ok(Map(n.entries[p[0] := child]))
  }

  /** Stepping into the first key of a path of length two or more. */
  lemma MapsAlongStep(n: Node, p: KeyPath)
    requires |p| >= 2
    ensures MapsAlong(n, p) <==>
      n.Map? && p[0] in n.entries && MapsAlong(n.entries[p[0]], p[1..])
  {
    if n.Map? && p[0] in n.entries {
      var child := n.entries[p[0]];
      forall k | 1 <= k < |p|
        ensures IsMapAt(n, p[..k]) <==> IsMapAt(child, p[1..][..k - 1])
      {
        assert p[..k][1..] == p[1..][..k - 1];
      }
      if MapsAlong(child, p[1..]) {
        forall k | 0 <= k < |p|
          ensures IsMapAt(n, p[..k])
        {
          if k > 0 {
            assert IsMapAt(child, p[1..][..k - 1]);
          } else {
            assert p[..0] == [];
          }
        }
      }
      if MapsAlong(n, p) {
        forall k | 0 <= k < |p| - 1
          ensures IsMapAt(child, p[1..][..k])
        {
          assert IsMapAt(n, p[..k + 1]);
        }
      }
    } else {
      assert p[..0] == [];
      assert p[..1] == [p[0]];
      assert !IsMapAt(n, p[..0]) || !IsMapAt(n, p[..1]);
    }
  }

  /** The assignment succeeds exactly when every proper prefix of the path
      already names a mapping (the last key alone may be new). */
  lemma {:induction false} AssignSucceeds(n: Node, p: KeyPath, v: Node)
    requires p != []
    ensures Assign(n, p, v).Ok? <==> MapsAlong(n, p)
    decreases |p|
  {
    if |p| == 1 {
      assert p[..0] == [];
    } else {
      MapsAlongStep(n, p);
      if n.Map? && p[0] in n.entries {
        AssignSucceeds(n.entries[p[0]], p[1..], v);
      }
    }
  }

  /** After a successful assignment the path reads back the value, and the
      mappings along it are still mappings. */
  lemma {:induction false} AssignReadsBack(n: Node, p: KeyPath, v: Node)
    requires p != [] && Assign(n, p, v).Ok?
    ensures Lookup(Assign(n, p, v).value, p) == Ok(v)
    ensures MapsAlong(Assign(n, p, v).value, p)
    decreases |p|
  {
    var r := Assign(n, p, v).value;
    if |p| == 1 {
      assert p[..0] == [];
      assert p[1..] == [];
    } else {
      AssignReadsBack(n.entries[p[0]], p[1..], v);
      MapsAlongStep(r, p);
    }
  }

  /** An assignment changes nothing at a path apart from the assigned one:
      reads there give the same value or raise the same error. */
  lemma {:induction false} AssignFrame(n: Node, p: KeyPath, v: Node, q: KeyPath)
    requires p != [] && Assign(n, p, v).Ok?
    requires Apart(p, q)
    ensures Lookup(Assign(n, p, v).value, q) == Lookup(n, q)
    decreases |p|
  {
    var r := Assign(n, p, v).value;
    assert q != [] by {
      assert [] <= p;
    }
    if q[0] == p[0] && |p| > 1 {
      AssignFrame(n.entries[p[0]], p[1..], v, q[1..]);
    }
  }

  /** Writing back the value already stored at a path gives the same document. */
  lemma {:induction false} AssignUnchanged(n: Node, p: KeyPath, v: Node)
    requires p != [] && Lookup(n, p) == Ok(v)
    ensures Assign(n, p, v) == Ok(n)
    decreases |p|
  {
    if |p| == 1 {
      assert n.entries[p[0] := v] == n.entries;
    } else {
      AssignUnchanged(n.entries[p[0]], p[1..], v);
      assert n.entries[p[0] := n.entries[p[0]]] == n.entries;
    }
  }
}
