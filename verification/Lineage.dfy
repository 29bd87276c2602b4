/** The lineage of promise ids: `IsAncestor` is a tree order, although the
    separator it expects depends on the ancestor (src/kernel.rs). */
module Lineage {
  import opened Records

  lemma {:induction false} OriginIsPrefix(id: Id)
    ensures OriginOf(id) <= id && ':' !in OriginOf(id)
    ensures OriginOf(id) != id ==> |OriginOf(id)| < |id| && id[|OriginOf(id)|] == ':'
    ensures OriginOf(id) == id <==> ':' !in id
  {
    if id != "" && id[0] != ':' {
      OriginIsPrefix(id[1..]);
      assert id == [id[0]] + id[1..];
    }
  }

  /** The origin ends at the first separator. */
  lemma OriginIsUnique(id: Id, o: string)
    requires o <= id && ':' !in o && (o == id || id[|o|] == ':')
    ensures OriginOf(id) == o
  {
    OriginIsPrefix(id);
    var origin := OriginOf(id);
    assert forall k :: 0 <= k < |o| ==> o[k] == id[k];
    assert forall k :: 0 <= k < |origin| ==> origin[k] == id[k];
    assert origin == id[..|origin|] && o == id[..|o|];
  }

  lemma AncestorSharesOrigin(a: Id, b: Id)
    requires IsAncestor(a, b)
    ensures OriginOf(a) == OriginOf(b)
  {
    if a != b {
      OriginIsPrefix(a);
      var o := OriginOf(a);
      assert a == b[..|a|];
      if ':' in a {
        assert b[|o|] == a[|o|] == ':';
      }
      OriginIsUnique(b, o);
    }
  }

  /** The lineage is a tree order: reflexive, antisymmetric and transitive, the
      ancestors of an id form a chain, and an ancestor shares its origin. */
  lemma LineageIsATreeOrder(a: Id, b: Id, c: Id)
    ensures IsAncestor(a, a)
    ensures IsAncestor(a, b) && IsAncestor(b, a) ==> a == b
    ensures IsAncestor(a, b) && IsAncestor(b, c) ==> IsAncestor(a, c)
    ensures IsAncestor(a, c) && IsAncestor(b, c) ==> IsAncestor(a, b) || IsAncestor(b, a)
    ensures IsAncestor(a, b) ==> OriginOf(a) == OriginOf(b)
  {
    hide OriginOf;
    if IsAncestor(a, b) {
      AncestorSharesOrigin(a, b);
    }
    if IsAncestor(a, c) && IsAncestor(b, c) {
      assert |a| < |b| ==> a == b[..|a|];
      assert |b| < |a| ==> b == a[..|b|];
    }
  }

  /** An id that has an ancestor with an origin separator lies below it by a `.`,
      and one below a bare origin by a `:`. */
  lemma SeparatorFollowsAncestor(a: Id, b: Id)
    requires a != b
    ensures IsAncestor(a, b) <==>
              (|a| < |b| && a <= b && ((b[|a|] == '.' && ':' in a) || (b[|a|] == ':' && a == OriginOf(b))))
  {
    if |a| < |b| && a <= b {
      OriginIsPrefix(a);
      OriginIsPrefix(b);
      if ':' !in a && b[|a|] == ':' {
        OriginIsUnique(b, a);
      }
    }
  }
}
