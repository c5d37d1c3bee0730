/**
 * The document-level listeners shared by every active slider. The first
 * slider to become active binds one move and one release listener on the
 * document, both in the `nstSlider` namespace; the last one to be torn down
 * unbinds them. Listeners bound by other code are left alone.
 */
module DragCoordinator {
  import opened Wrappers

  const Namespace: string := "nstSlider"

  datatype EventType = Move | Release | Foreign(name: string)

  /** A document listener, as an event type and a namespace tag only. */
  datatype Listener = Listener(eventType: EventType, namespace: string)

  /** The listeners sliders share while at least one of them is active. */
  const SharedListeners: seq<Listener> := [Listener(Move, Namespace), Listener(Release, Namespace)]

  function EventTypes(listeners: seq<Listener>): set<EventType> {
    set i | 0 <= i < |listeners| :: listeners[i].eventType
  }

  function Namespaces(listeners: seq<Listener>): set<string> {
    set i | 0 <= i < |listeners| :: listeners[i].namespace
  }

  /** None of the listeners is tagged with the slider namespace. */
  predicate Unrelated(listeners: seq<Listener>) {
    forall i :: 0 <= i < |listeners| ==> listeners[i].namespace != Namespace
  }

  class Registry {
    /** What other code had bound to the document before any slider. */
    const baseline: seq<Listener>
    /** Everything bound to the document now. */
    var bound: seq<Listener>
    /** The identities of the sliders currently active. */
    var active: set<nat>
    /** The reference count. */
    var count: nat
    var nextId: nat
    /** The one slider whose grip is being dragged, if any. */
    var dragging: Option<nat>

    ghost predicate Valid()
      reads this
    {
      && count == |active|
      && (forall id :: id in active ==> id < nextId)
      && bound == baseline + (if count == 0 then [] else SharedListeners)
      && (dragging.Some? ==> dragging.value in active)
      && Unrelated(baseline)
    }

    constructor (baseline: seq<Listener>)
      requires Unrelated(baseline)
      ensures Valid()
      ensures this.baseline == baseline && bound == baseline && active == {} && dragging == None
    {
      this.baseline := baseline;
      bound := baseline;
      active := {};
      count := 0;
      nextId := 0;
      dragging := None;
    }

    /** A slider becomes active: bind the shared listeners on 0 -> 1. */
    method Register() returns (id: nat)
      requires Valid()
      modifies this
      ensures Valid()
      ensures id !in old(active) && active == old(active) + {id}
      ensures count == old(count) + 1
      ensures bound == baseline + SharedListeners
      ensures dragging == old(dragging)
    {
      id := nextId;
      nextId := nextId + 1;
      if count == 0 {
        bound := bound + SharedListeners;
      }
      active := active + {id};
      count := count + 1;
    }

    /**
     * A slider is torn down: forget it (and its drag, if it had one) and
     * unbind the shared listeners on 1 -> 0. A slider that is not active
     * changes nothing.
     */
    method Unregister(id: nat)
      requires Valid()
      modifies this
      ensures Valid()
      ensures active == old(active) - {id}
      ensures count == if id in old(active) then old(count) - 1 else old(count)
      ensures dragging == if old(dragging) == Some(id) then None else old(dragging)
    {
      if id in active {
        if dragging == Some(id) {
          dragging := None;
        }
        active := active - {id};
        count := count - 1;
        if count == 0 {
          bound := baseline;
        }
      }
    }

    /** A grip of slider `id` is grabbed; ignored for a slider that is not active. */
    method BeginDrag(id: nat)
      requires Valid()
      modifies this`dragging
      ensures Valid()
      ensures dragging == if id in active then Some(id) else old(dragging)
    {
      if id in active {
        dragging := Some(id);
      }
    }

    /** The pointer is released. */
    method EndDrag()
      requires Valid()
      modifies this`dragging
      ensures Valid() && dragging == None
    {
      dragging := None;
    }
  }

  /**
   * While any slider is active the document carries exactly the two shared
   * listener types in the one namespace on top of what was already there;
   * when none is, it carries exactly what was there before.
   */
  lemma {:induction false} BoundListeners(baseline: seq<Listener>, count: nat)
    ensures var bound := baseline + (if count == 0 then [] else SharedListeners);
      && (count == 0 ==> bound == baseline)
      && (count > 0 ==> EventTypes(bound) == EventTypes(baseline) + {Move, Release})
      && (count > 0 ==> Namespaces(bound) == Namespaces(baseline) + {Namespace})
  {
    var bound := baseline + (if count == 0 then [] else SharedListeners);
    if count > 0 {
      assert bound[|baseline|] == Listener(Move, Namespace);
      assert bound[|baseline| + 1] == Listener(Release, Namespace);
      forall e | e in EventTypes(bound) ensures e in EventTypes(baseline) + {Move, Release} {
        var i :| 0 <= i < |bound| && bound[i].eventType == e;
        if i < |baseline| {
          assert baseline[i] == bound[i];
        }
      }
      forall e | e in EventTypes(baseline) ensures e in EventTypes(bound) {
        var i :| 0 <= i < |baseline| && baseline[i].eventType == e;
        assert bound[i] == baseline[i];
      }
      forall n | n in Namespaces(bound) ensures n in Namespaces(baseline) + {Namespace} {
        var i :| 0 <= i < |bound| && bound[i].namespace == n;
        if i < |baseline| {
          assert baseline[i] == bound[i];
        }
      }
      forall n | n in Namespaces(baseline) ensures n in Namespaces(bound) {
        var i :| 0 <= i < |baseline| && baseline[i].namespace == n;
        assert bound[i] == baseline[i];
      }
    }
  }

  /**
   * getBoundEventList: the distinct event types bound to the document, in
   * order of first appearance.
   */
  method BoundEventList(bound: seq<Listener>) returns (list: seq<EventType>)
    ensures forall e :: e in list <==> e in EventTypes(bound)
    ensures forall i, j :: 0 <= i < j < |list| ==> list[i] != list[j]
  {
    list := [];
    for k := 0 to |bound|
      invariant forall e :: e in list <==> e in EventTypes(bound[..k])
      invariant forall i, j :: 0 <= i < j < |list| ==> list[i] != list[j]
    {
      assert bound[..k + 1] == bound[..k] + [bound[k]];
      if bound[k].eventType !in list {
        list := list + [bound[k].eventType];
      }
    }
    assert bound[..|bound|] == bound;
  }

  /**
   * getBoundEventNamespaces: the distinct namespaces of the listeners bound
   * to the document, in order of first appearance.
   */
  method BoundEventNamespaces(bound: seq<Listener>) returns (namespaces: seq<string>)
    ensures forall n :: n in namespaces <==> n in Namespaces(bound)
    ensures forall i, j :: 0 <= i < j < |namespaces| ==> namespaces[i] != namespaces[j]
  {
    namespaces := [];
    for k := 0 to |bound|
      invariant forall n :: n in namespaces <==> n in Namespaces(bound[..k])
      invariant forall i, j :: 0 <= i < j < |namespaces| ==> namespaces[i] != namespaces[j]
    {
      assert bound[..k + 1] == bound[..k] + [bound[k]];
      if bound[k].namespace !in namespaces {
        namespaces := namespaces + [bound[k].namespace];
      }
    }
    assert bound[..|bound|] == bound;
  }

  /** A list without repetitions has as many entries as the set of its elements. */
  lemma {:induction false} DistinctCardinality<T>(list: seq<T>, s: set<T>)
    requires forall i, j :: 0 <= i < j < |list| ==> list[i] != list[j]
    requires forall e :: e in list <==> e in s
    ensures |list| == |s|
  {
    if |list| > 0 {
      var last := list[|list| - 1];
      var init := list[..|list| - 1];
      assert list == init + [last];
      forall e ensures e in init <==> e in s - {last} {
        if e in init {
          var k :| 0 <= k < |init| && init[k] == e;
          assert list[k] == e;
        }
      }
      DistinctCardinality(init, s - {last});
    }
  }
}
