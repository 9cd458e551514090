/**
 * The bone table shared by a skinned model and the clips built on it: a map
 * from bone name to BoneInfo, with new names numbered from a running counter.
 */
module BoneTable {
  import opened Geometry

  /** BoneInfo: the slot ID in the final bone matrices and the decomposed offset transform. */
  datatype BoneInfo = BoneInfo(id: int, position: Vec3, rotation: Quat)

  type BoneMap = map<string, BoneInfo>

  /** A registration request: a name and the offset to store if the name is new. */
  datatype Entry = Entry(name: string, position: Vec3, rotation: Quat)

  /** The table and its counter after registering a sequence of entries. */
  datatype Table = Table(bones: BoneMap, counter: int)

  /**
   * One registration: an absent name gets the counter as its ID and the counter
   * advances; a present name keeps its entry and the counter stays.
   */
  function Register(t: Table, e: Entry): (r: Table)
    ensures e.name in r.bones
    ensures e.name in t.bones ==> r == t
    ensures e.name !in t.bones ==> r.bones == t.bones[e.name := BoneInfo(t.counter, e.position, e.rotation)]
                                   && r.counter == t.counter + 1
  {
    if e.name in t.bones then t
    else Table(t.bones[e.name := BoneInfo(t.counter, e.position, e.rotation)], t.counter + 1)
  }

  /** Registration of the entries in order, as a left fold. */
  function RegisterAll(t: Table, es: seq<Entry>): Table
  {
    if es == [] then t else Register(RegisterAll(t, es[..|es| - 1]), es[|es| - 1])
  }

  function NamesOf(es: seq<Entry>): set<string>
  {
    set i | 0 <= i < |es| :: es[i].name
  }

  /** Different names have different IDs. */
  predicate IdsUnique(m: BoneMap)
  {
    forall a, b :: a in m && b in m && a != b ==> m[a].id != m[b].id
  }

  function IdSet(m: BoneMap): set<int>
  {
    set k | k in m :: m[k].id
  }

  /** The IDs 0 .. count - 1. */
  function Range(count: int): (r: set<int>)
    ensures forall x :: x in r <==> 0 <= x < count
    decreases count
  {
    if count <= 0 then {} else Range(count - 1) + {count - 1}
  }

  /** The IDs of m are exactly 0 .. count - 1, each used once. */
  predicate Dense(m: BoneMap, count: int)
  {
    IdsUnique(m) && IdSet(m) == Range(count)
  }

  /** Present names keep their entries and the domain grows by exactly the registered names. */
  lemma {:induction false} RegisterAllKeeps(t: Table, es: seq<Entry>)
    ensures RegisterAll(t, es).bones.Keys == t.bones.Keys + NamesOf(es)
    ensures forall k :: k in t.bones ==> RegisterAll(t, es).bones[k] == t.bones[k]
    decreases |es|
  {
    if es != [] {
      var init := es[..|es| - 1];
      RegisterAllKeeps(t, init);
      assert NamesOf(es) == NamesOf(init) + {es[|es| - 1].name} by {
        assert forall i :: 0 <= i < |init| ==> init[i] == es[i];
      }
    }
  }

  /**
   * The counter never goes back, and every new name gets an ID in
   * [old counter, new counter), distinct from every other new name's.
   */
  lemma {:induction false} RegisterAllFreshIds(t: Table, es: seq<Entry>)
    ensures var r := RegisterAll(t, es);
      && t.counter <= r.counter
      && (forall k :: k in r.bones && k !in t.bones ==> t.counter <= r.bones[k].id < r.counter)
      && (forall a, b :: a in r.bones && b in r.bones && a !in t.bones && b !in t.bones && a != b
            ==> r.bones[a].id != r.bones[b].id)
    decreases |es|
  {
    if es != [] {
      RegisterAllFreshIds(t, es[..|es| - 1]);
    }
  }

  /** Starting from a dense table, registration keeps it dense: IDs stay 0 .. counter - 1. */
  lemma {:induction false} RegisterAllKeepsDense(t: Table, es: seq<Entry>)
    requires 0 <= t.counter && Dense(t.bones, t.counter)
    ensures Dense(RegisterAll(t, es).bones, RegisterAll(t, es).counter)
    decreases |es|
  {
    if es != [] {
      var p := RegisterAll(t, es[..|es| - 1]);
      RegisterAllKeepsDense(t, es[..|es| - 1]);
      RegisterAllFreshIds(t, es[..|es| - 1]);
      var e := es[|es| - 1];
      if e.name !in p.bones {
        var r := Register(p, e);
        assert IdSet(r.bones) == IdSet(p.bones) + {p.counter} by {
          forall x | x in IdSet(r.bones) ensures x in IdSet(p.bones) + {p.counter} {
            var k :| k in r.bones && r.bones[k].id == x;
            if k != e.name { assert k in p.bones; }
          }
          forall x | x in IdSet(p.bones) ensures x in IdSet(r.bones) {
            var k :| k in p.bones && p.bones[k].id == x;
            assert k in r.bones && r.bones[k].id == x;
          }
          assert r.bones[e.name].id == p.counter;
        }
        assert Range(r.counter) == Range(p.counter) + {p.counter};
        forall a, b | a in r.bones && b in r.bones && a != b ensures r.bones[a].id != r.bones[b].id {
          if a != e.name && b != e.name {
          } else if a == e.name {
            assert p.bones[b].id in IdSet(p.bones);
          } else {
            assert p.bones[a].id in IdSet(p.bones);
          }
        }
      }
    }
  }

  /** In particular a table built from nothing numbers its bones 0 .. counter - 1. */
  lemma EmptyTableDense(es: seq<Entry>)
    ensures Dense(RegisterAll(Table(map[], 0), es).bones, RegisterAll(Table(map[], 0), es).counter)
  {
    assert IdSet(map[]) == {} == Range(0);
    RegisterAllKeepsDense(Table(map[], 0), es);
  }

  /** The first occurrence of a new name gets the counter reached just before it. */
  lemma {:induction false} FirstOccurrenceId(t: Table, es: seq<Entry>, j: nat)
    requires j < |es|
    requires es[j].name !in t.bones && es[j].name !in NamesOf(es[..j])
    ensures var r := RegisterAll(t, es);
      es[j].name in r.bones && r.bones[es[j].name].id == RegisterAll(t, es[..j]).counter
  {
    var p := RegisterAll(t, es[..j]);
    NotYetRegistered(t, es[..j], es[j].name);
    var q := Register(p, es[j]);
    RegisterAllStep(t, es, j);
    RegisterAllSplit(t, es[..j + 1], es[j + 1..]);
    assert es[..j + 1] + es[j + 1..] == es;
    RegisterAllKeepsName(q, es[j + 1..], es[j].name);
  }

  /** Registering the first j + 1 entries is registering the first j, then entry j. */
  lemma RegisterAllStep(t: Table, es: seq<Entry>, j: nat)
    requires j < |es|
    ensures RegisterAll(t, es[..j + 1]) == Register(RegisterAll(t, es[..j]), es[j])
  {
    assert es[..j + 1][..j] == es[..j];
  }

  /** A name neither in the table nor among the entries stays unregistered. */
  lemma NotYetRegistered(t: Table, es: seq<Entry>, k: string)
    requires k !in t.bones && k !in NamesOf(es)
    ensures k !in RegisterAll(t, es).bones
  {
    RegisterAllKeeps(t, es);
  }

  /** A name already in the table keeps its entry. */
  lemma RegisterAllKeepsName(t: Table, es: seq<Entry>, k: string)
    requires k in t.bones
    ensures k in RegisterAll(t, es).bones && RegisterAll(t, es).bones[k] == t.bones[k]
  {
    RegisterAllKeeps(t, es);
  }

  /** Registering a + b is registering a, then b. */
  lemma {:induction false} RegisterAllSplit(t: Table, a: seq<Entry>, b: seq<Entry>)
    ensures RegisterAll(t, a + b) == RegisterAll(RegisterAll(t, a), b)
    decreases |b|
  {
    if b == [] {
      assert a + b == a;
    } else {
      assert (a + b)[..|a + b| - 1] == a + b[..|b| - 1];
      RegisterAllSplit(t, a, b[..|b| - 1]);
    }
  }

  /**
   * New IDs follow the order in which the names first appear: a new name
   * registered before the first occurrence of another new name has a smaller ID.
   */
  lemma NewIdsInOrder(t: Table, es: seq<Entry>, i: nat, j: nat)
    requires i < j < |es|
    requires es[i].name !in t.bones
    requires es[j].name !in t.bones && es[j].name !in NamesOf(es[..j])
    ensures var r := RegisterAll(t, es);
      es[i].name in r.bones && es[j].name in r.bones && r.bones[es[i].name].id < r.bones[es[j].name].id
  {
    var p := RegisterAll(t, es[..j]);
    var a := es[i].name;
    assert es[..j][i] == es[i];
    RegisteredName(t, es[..j], i);
    FreshIdBelow(t, es[..j], a);
    FirstOccurrenceId(t, es, j);
    RegisterAllSplit(t, es[..j], es[j..]);
    assert es[..j] + es[j..] == es;
    RegisterAllKeepsName(p, es[j..], a);
  }

  /** Every registered entry's name is in the resulting table. */
  lemma RegisteredName(t: Table, es: seq<Entry>, i: nat)
    requires i < |es|
    ensures es[i].name in RegisterAll(t, es).bones
  {
    RegisterAllKeeps(t, es);
    assert es[i].name in NamesOf(es);
  }

  /** A name the registration added has an ID between the old and the new counter. */
  lemma FreshIdBelow(t: Table, es: seq<Entry>, k: string)
    requires k in RegisterAll(t, es).bones && k !in t.bones
    ensures t.counter <= RegisterAll(t, es).bones[k].id < RegisterAll(t, es).counter
  {
    RegisterAllFreshIds(t, es);
  }

}
