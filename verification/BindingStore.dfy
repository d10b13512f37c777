/** bindings.go: named bindings, kept both by name and in the order they were added. */
module BindingStores {
  import opened Basics
  import opened BindingModel

  /** The names in the store after Add has been called with `adds`, a duplicate panicking
      without effect. */
  function NamesAfter(adds: seq<string>): seq<string> {
    if adds == [] then []
    else
      var before, name := NamesAfter(adds[..|adds| - 1]), adds[|adds| - 1];
      if name in before then before else before + [name]
  }

  /** i is where name was first added. */
  ghost predicate FirstAdd(adds: seq<string>, name: string, i: nat) {
    i < |adds| && adds[i] == name && name !in adds[..i]
  }

  /** Over any calls of Add, duplicates included: every name added is listed once, in the
      order of the first adds. */
  lemma {:induction false} NamesInFirstAddOrder(adds: seq<string>)
    ensures var order := NamesAfter(adds);
            && NoDuplicates(order)
            && (forall name :: name in order <==> name in adds)
            && forall i, j, p: nat, q: nat ::
                 0 <= i < j < |order| && FirstAdd(adds, order[i], p) && FirstAdd(adds, order[j], q) ==> p < q
  {
    if adds != [] {
      var rest, name := adds[..|adds| - 1], adds[|adds| - 1];
      NamesInFirstAddOrder(rest);
      var order := NamesAfter(adds);
      assert adds == rest + [name];
      forall i, j, p: nat, q: nat | 0 <= i < j < |order| && FirstAdd(adds, order[i], p) && FirstAdd(adds, order[j], q)
        ensures p < q
      {
        assert order[i] == NamesAfter(rest)[i];
        assert order[i] in rest && adds[..|rest|] == rest;
        assert p != |rest|;
        assert adds[..p] == rest[..p] && FirstAdd(rest, order[i], p);
        if q < |rest| {
          assert adds[..q] == rest[..q];
          assert FirstAdd(rest, order[j], q);
          assert order[j] in rest;
          assert order[j] == NamesAfter(rest)[j];
        }
      }
    }
  }

  /** The laws of NamesInFirstAddOrder, of the store itself. */
  lemma StoreInFirstAddOrder(s: BindingStore, i: nat, j: nat, p: nat, q: nat)
    requires s.Valid() && i < j < |s.order|
    requires FirstAdd(s.adds, s.order[i], p) && FirstAdd(s.adds, s.order[j], q)
    ensures p < q
  {
    NamesInFirstAddOrder(s.adds);
  }

  class BindingStore {
    var order: seq<string>
    var byName: map<string, Binding>
    /** The bindings in Add order. */
    ghost var listing: seq<Binding>
    ghost var members: set<Binding>
    /** The names Add has been called with, the refused ones included. */
    ghost var adds: seq<string>

    ghost predicate Valid() reads this {
      && order == NamesAfter(adds)
      && NoDuplicates(order)
      && (forall name :: name in order <==> name in byName)
      && |listing| == |order|
      && (forall i :: 0 <= i < |order| ==>
            && order[i] in byName && byName[order[i]] == listing[i]
            && listing[i].name == order[i] && listing[i] in members)
    }

    constructor ()
      ensures Valid() && order == [] && byName == map[] && listing == [] && members == {} && adds == []
    {
      order, byName, listing, members, adds := [], map[], [], {}, [];
    }

    function Get(name: string): Option<Binding>
      reads this
    {
      if name in byName then Some(byName[name]) else None
    }

    /** Add panics on a name that is taken; otherwise the new binding is the last one. */
    method Add(name: string, listenAddr: string) returns (b: Option<Binding>)
      requires Valid()
      modifies this
      ensures Valid()
      ensures adds == old(adds) + [name]
      ensures b.None? <==> name in old(order)
      ensures b.None? ==>
                order == old(order) && byName == old(byName) && listing == old(listing) && members == old(members)
      ensures b.Some? ==>
                && fresh(b.value) && b.value.View() == EMPTY_CONFIG && b.value.name == name
                && b.value.listenAddr == listenAddr
                && b.value.finalHandler.None? && b.value.addr.None? && b.value.srv.None?
                && order == old(order) + [name] && byName == old(byName)[name := b.value]
                && listing == old(listing) + [b.value] && members == old(members) + {b.value}
    {
      adds := adds + [name];
      assert adds[..|adds| - 1] == old(adds);
      if name in byName {
        return None;
      }
      var nb := new Binding(name, listenAddr);
      byName := byName[name := nb];
      order := order + [name];
      listing, members := listing + [nb], members + {nb};
      b := Some(nb);
    }

    /** A snapshot of the bindings, in Add order; each is the one Get returns under its name. */
    method OrderedBindings() returns (out: seq<Binding>)
      requires Valid()
      ensures out == listing
      ensures |out| == |order|
      ensures forall i :: 0 <= i < |out| ==> Get(order[i]) == Some(out[i]) && out[i].name == order[i]
      ensures NoDuplicates(out)
    {
      out := [];
      for i := 0 to |order|
        invariant out == listing[..i]
      {
        out := out + [byName[order[i]]];
      }
      assert forall i, j :: 0 <= i < j < |out| ==> out[i].name != out[j].name;
    }
  }
}
