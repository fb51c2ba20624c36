/** The subscription index of a mesh node: exact keys are looked up, wildcards scanned. */
module MeshIndex {
  import opened Wrappers
  import opened KeyExpr

  datatype Owner = Local(id: nat) | Sess(uid: nat)

  type Entry = (Owner, nat)

  /** What a naive scan over all subscriptions finds. */
  ghost function Scanned(exprs: map<Entry, string>, key: string): set<Entry> {
    set k | k in exprs && Intersects(exprs[k], key)
  }

  /** The two lookup structures hold exactly the entries of `exprs`. */
  ghost predicate IndexOk(exprs: map<Entry, string>, exact: map<string, set<Entry>>, wild: set<Entry>) {
    && (forall k :: k in wild <==> k in exprs && !Concrete(exprs[k]))
    && (forall e :: e in exact ==> exact[e] != {} && Concrete(e))
    && (forall e, k :: e in exact && k in exact[e] ==> k in exprs && exprs[k] == e)
    && (forall k :: k in exprs && Concrete(exprs[k]) ==> exprs[k] in exact && k in exact[exprs[k]])
  }

  /** Looking up the key and scanning the wildcards finds what a scan of everything finds. */
  lemma LookupIsScan(exprs: map<Entry, string>, exact: map<string, set<Entry>>, wild: set<Entry>, key: string)
    requires IndexOk(exprs, exact, wild) && ValidKey(key) && forall k :: k in exprs ==> ValidExpr(exprs[k])
    ensures forall k :: k in Scanned(exprs, key) <==>
              (key in exact && k in exact[key]) || (k in wild && Intersects(exprs[k], key))
  {
    forall k | k in exprs && Concrete(exprs[k]) ensures Intersects(exprs[k], key) <==> exprs[k] == key {
      ConcreteIntersects(exprs[k], key);
    }
  }

  class SubIndex {
    var exprs: map<Entry, string>
    var exact: map<string, set<Entry>>
    var wild: set<Entry>

    ghost predicate Valid()
      reads this
    {
      IndexOk(exprs, exact, wild)
    }

    constructor ()
      ensures Valid() && exprs == map[]
    {
      exprs, exact, wild := map[], map[], {};
    }

    method Remove(o: Owner, id: nat)
      requires Valid()
      modifies this
      ensures Valid() && exprs == old(exprs) - {(o, id)}
    {
      if (o, id) !in exprs { return; }
      var e := exprs[(o, id)];
      exprs := exprs - {(o, id)};
      if e in exact {
        var rest := exact[e] - {(o, id)};
        exact := exact[e := rest];
        if rest == {} { exact := exact - {e}; }
      }
      wild := wild - {(o, id)};
    }

    method Add(o: Owner, id: nat, expr: string)
      requires Valid()
      modifies this
      ensures Valid() && exprs == old(exprs)[(o, id) := expr]
    {
      Remove(o, id);
      if Concrete(expr) {
        exact := exact[expr := (if expr in exact then exact[expr] else {}) + {(o, id)}];
      } else {
        wild := wild + {(o, id)};
      }
      exprs := exprs[(o, id) := expr];
    }

    /** The subscriptions that a sample with this key reaches, each once. */
    method Matching(key: string) returns (found: seq<Entry>)
      requires Valid()
      ensures Distinct(found)
      ensures ValidKey(key) && (forall k :: k in exprs ==> ValidExpr(exprs[k]))
              ==> forall k :: k in found <==> k in Scanned(exprs, key)
    {
      var hits := if key in exact then exact[key] else {};
      found := ListOf(hits);
      var left := wild;
      while left != {}
        invariant left <= wild && Distinct(found)
        invariant forall k :: k in found <==> k in hits || (k in wild - left && Intersects(exprs[k], key))
        decreases left
      {
        var k :| k in left;
        var hit := IntersectsScan(exprs[k], key);
        if hit {
          Extend(found, k);
          found := found + [k];
        }
        left := left - {k};
      }
      if ValidKey(key) && forall k :: k in exprs ==> ValidExpr(exprs[k]) {
        LookupIsScan(exprs, exact, wild, key);
      }
    }
  }
}
