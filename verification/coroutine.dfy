/**
 The call-stack bookkeeping of the stackful coroutine engine, without the
 x86-64 context switch. A saved machine context is an opaque `Token`; the
 coroutine records live in a heap addressed by `CoId` (the pointers of the
 C code), and the call stack is a growable array of those ids whose last
 entry is the running coroutine and whose first entry is the root frame of
 the driver. The C `assert`s and the unreachable-abort become `Abort`.
 */
module Coroutines {

  /** A saved execution context: the stack pointer with the callee-saved
      registers stored above it. Nothing in this model looks inside it. */
  datatype Token = Token(id: nat)

  /** The context of a zero-filled record. */
  const NullToken := Token(0)

  datatype Coroutine = Coroutine(rsp: Token, finished: bool)

  type CoId = nat

  const InitCapacity: nat := 256

  /** The dynamic array of coroutine pointers. */
  datatype Stack = Stack(items: seq<CoId>, capacity: nat)

  /** Every live coroutine record, the call stack, and the next unused id. */
  datatype World = World(heap: map<CoId, Coroutine>, stack: Stack, nextId: CoId)

  datatype Outcome<T> = Ok(value: T) | Abort(message: string)
  {
    predicate IsFailure() { Abort? }

    function PropagateFailure<U>(): Outcome<U>
      requires Abort?
    {
      Abort(message)
    }

    function Extract(): T
      requires Ok?
    {
      value
    }
  }

  /** A control transfer: the world afterwards and the context that the
      processor continues in. */
  datatype Switch = Switch(world: World, restored: Token)

  /** Every pointer on the stack is live, ids are never reused, and the
      array never holds more than its capacity. */
  ghost predicate WellFormed(w: World)
  {
    && |w.stack.items| <= w.stack.capacity
    && (forall i :: 0 <= i < |w.stack.items| ==> w.stack.items[i] in w.heap)
    && (forall id :: id in w.heap ==> id < w.nextId)
  }

  /** A running session: the root frame is present. */
  ghost predicate Valid(w: World)
  {
    WellFormed(w) && |w.stack.items| >= 1
  }

  function Top(w: World): CoId
    requires |w.stack.items| >= 1
  {
    w.stack.items[|w.stack.items| - 1]
  }

  /** `coroutine_da_append`: grow to 256 entries on first use and double
      afterwards, then store the item at the end. */
  function DaAppend(s: Stack, id: CoId): (r: Stack)
    ensures r.items == s.items + [id]
    ensures |s.items| <= s.capacity ==> |r.items| <= r.capacity
    ensures |s.items| < s.capacity ==> r.capacity == s.capacity
    ensures |s.items| >= s.capacity && s.capacity == 0 ==> r.capacity == InitCapacity
    ensures |s.items| >= s.capacity && s.capacity > 0 ==> r.capacity == 2 * s.capacity
  {
    var capacity :=
      if |s.items| >= s.capacity then
        (if s.capacity == 0 then InitCapacity else s.capacity * 2)
      else s.capacity;
    Stack(s.items + [id], capacity)
  }

  /** `coroutine_init`: a stack holding one zero-filled root record. */
  function Init(): (w: World)
    ensures Valid(w)
    ensures |w.stack.items| == 1 && w.stack.capacity == InitCapacity
    ensures w.heap[Top(w)] == Coroutine(NullToken, false)
    ensures w.heap.Keys == {Top(w)}
  {
    World(map[0 := Coroutine(NullToken, false)], DaAppend(Stack([], 0), 0), 1)
  }

  /** `coroutine_deinit`: only legal once everything but the root has
      returned; frees the root record. */
  function Deinit(w: World): (r: Outcome<map<CoId, Coroutine>>)
    requires WellFormed(w)
    ensures r.Ok? <==> |w.stack.items| == 1
    ensures r.Ok? ==> r.value.Keys == w.heap.Keys - {w.stack.items[0]}
  {
    if |w.stack.items| != 1 then Abort("stack->count == 1")
    else Ok(w.heap - {w.stack.items[0]})
  }

  /** The part of `coroutine_create` above the stack priming: a fresh,
      unfinished record whose saved context is `entry` (the primed stack
      that begins in the entry function). The call stack is untouched. */
  datatype Created = Created(world: World, id: CoId)

  function Create(w: World, entry: Token): (r: Created)
    requires WellFormed(w)
    ensures r.id !in w.heap
    ensures r.world.heap == w.heap[r.id := Coroutine(entry, false)]
    ensures r.world.stack == w.stack
    ensures WellFormed(r.world)
  {
    Created(World(w.heap[w.nextId := Coroutine(entry, false)], w.stack, w.nextId + 1), w.nextId)
  }

  /** `coroutine_destroy`: releases the record. */
  function Destroy(w: World, id: CoId): (r: World)
    requires WellFormed(w) && id in w.heap
    ensures r.heap.Keys == w.heap.Keys - {id} && r.stack == w.stack
    ensures (forall i :: 0 <= i < |w.stack.items| ==> w.stack.items[i] != id) ==> WellFormed(r)
  {
    w.(heap := w.heap - {id})
  }

  /** Stores the context of the running coroutine into the top record. */
  function SaveTop(w: World, rsp: Token): (r: World)
    requires WellFormed(w) && |w.stack.items| >= 1
  {
    var top := Top(w);
    w.(heap := w.heap[top := w.heap[top].(rsp := rsp)])
  }

  /** `coroutine_push_frame`, reached from `coroutine_resume` with the
      resumer's saved context `rsp`: save it into the top, push `id`, and
      continue in `id`'s context. */
  function PushFrame(w: World, id: CoId, rsp: Token): (r: Outcome<Switch>)
    requires WellFormed(w) && id in w.heap
    ensures r.Ok? <==> |w.stack.items| > 0
    ensures r.Ok? ==> WellFormed(r.value.world)
    ensures r.Ok? ==> r.value.world.stack.items == w.stack.items + [id]
    ensures r.Ok? ==> r.value.world.heap.Keys == w.heap.Keys && r.value.world.nextId == w.nextId
    ensures r.Ok? ==> r.value.world.heap[Top(w)] == w.heap[Top(w)].(rsp := rsp)
    ensures r.Ok? ==> forall x :: x in w.heap && x != Top(w) ==> r.value.world.heap[x] == w.heap[x]
    ensures r.Ok? ==> r.value.restored == r.value.world.heap[id].rsp
  {
    if |w.stack.items| == 0 then Abort("stack->count > 0")
    else
      var saved := SaveTop(w, rsp);
      var pushed := saved.(stack := DaAppend(saved.stack, id));
      Ok(Switch(pushed, pushed.heap[id].rsp))
  }

  /** `coroutine_pop_frame`, reached from `coroutine_yield` with the
      yielder's saved context: save it, pop, and continue in the new top.
      The root can never be popped. */
  function PopFrame(w: World, rsp: Token): (r: Outcome<Switch>)
    requires WellFormed(w)
    ensures r.Ok? <==> |w.stack.items| >= 2
    ensures r.Ok? ==> WellFormed(r.value.world)
    ensures r.Ok? ==> r.value.world.stack.items == w.stack.items[..|w.stack.items| - 1]
    ensures r.Ok? ==> r.value.world.heap.Keys == w.heap.Keys && r.value.world.nextId == w.nextId
    ensures r.Ok? ==> r.value.world.heap[Top(w)] == w.heap[Top(w)].(rsp := rsp)
    ensures r.Ok? ==> forall x :: x in w.heap && x != Top(w) ==> r.value.world.heap[x] == w.heap[x]
    ensures r.Ok? ==> r.value.restored == r.value.world.heap[Top(r.value.world)].rsp
  {
    if |w.stack.items| == 0 then Abort("stack->count > 0")
    else
      var saved := SaveTop(w, rsp);
      var n := |saved.stack.items| - 1;
      var popped := saved.(stack := saved.stack.(items := saved.stack.items[..n]));
      if n == 0 then Abort("stack->count > 0")
      else Ok(Switch(popped, popped.heap[popped.stack.items[n - 1]].rsp))
  }

  /** `coroutine_resume`: push and switch into `id`. A finished coroutine
      was last suspended inside `coroutine__finish_current`, right after its
      final yield, so resuming it reaches the unreachable-abort there. */
  function Resume(w: World, id: CoId, rsp: Token): (r: Outcome<Switch>)
    requires WellFormed(w) && id in w.heap
    ensures r.Ok? <==> |w.stack.items| > 0 && !w.heap[id].finished
    ensures r.Ok? ==> r == PushFrame(w, id, rsp)
  {
    var s :- PushFrame(w, id, rsp);
    if w.heap[id].finished then Abort("Finished coroutine was resumed!!!")
    else Ok(s)
  }

  /** `coroutine__finish_current`, where a coroutine's entry function
      returns to: mark the running coroutine finished and yield. */
  function FinishCurrent(w: World, rsp: Token): (r: Outcome<Switch>)
    requires WellFormed(w)
    ensures r.Ok? <==> |w.stack.items| >= 2
    ensures r.Ok? ==> r.value.world.heap.Keys == w.heap.Keys
    ensures r.Ok? ==> r.value.world.heap[Top(w)] == w.heap[Top(w)].(rsp := rsp, finished := true)
    ensures r.Ok? ==> forall x :: x in w.heap && x != Top(w) ==> r.value.world.heap[x] == w.heap[x]
    ensures r.Ok? ==> r.value.world.stack.items == w.stack.items[..|w.stack.items| - 1]
    ensures r.Ok? ==> WellFormed(r.value.world)
    ensures r.Ok? ==> r.value.restored == r.value.world.heap[Top(r.value.world)].rsp
    ensures r.Ok? && Top(r.value.world) != Top(w) ==> r.value.restored == w.heap[Top(r.value.world)].rsp
  {
    if |w.stack.items| == 0 then Abort("stack->count > 0")
    else
      var top := Top(w);
      PopFrame(w.(heap := w.heap[top := w.heap[top].(finished := true)]), rsp)
  }

  // ---------------------------------------------------------------------
  // Nesting

  /** N nested resumes followed by the N matching yields: `ids[0]` is
      resumed from the current top, `ids[1]` from inside `ids[0]`, and so on;
      then the innermost yields first. */
  function RoundTrip(w: World, ids: seq<CoId>, resumed: seq<Token>, yielded: seq<Token>): (r: Outcome<Switch>)
    requires WellFormed(w) && |w.stack.items| >= 1
    requires |resumed| == |ids| == |yielded|
    requires forall i :: 0 <= i < |ids| ==> ids[i] in w.heap
    decreases |ids|
  {
    if |ids| == 0 then Ok(Switch(w, w.heap[Top(w)].rsp))
    else
      var down :- PushFrame(w, ids[0], resumed[0]);
      var inner :- RoundTrip(down.world, ids[1..], resumed[1..], yielded[1..]);
      PopFrame(inner.world, yielded[0])
  }

  /** Ids that are pairwise distinct and not already on the stack: no
      coroutine is resumed while it is suspended or running. */
  ghost predicate Fresh(w: World, ids: seq<CoId>)
  {
    && (forall i, j :: 0 <= i < j < |ids| ==> ids[i] != ids[j])
    && (forall i, k :: 0 <= i < |ids| && 0 <= k < |w.stack.items| ==> ids[i] != w.stack.items[k])
  }

  /** LIFO: after N nested resumes and N yields the stack is back to what
      it was, the resumer continues exactly in the context it saved when it
      resumed the first coroutine, and no record outside the nest changed. */
  lemma {:induction false} RoundTripLifo(w: World, ids: seq<CoId>, resumed: seq<Token>, yielded: seq<Token>)
    requires WellFormed(w) && |w.stack.items| >= 1
    requires |resumed| == |ids| == |yielded|
    requires forall i :: 0 <= i < |ids| ==> ids[i] in w.heap
    requires Fresh(w, ids)
    ensures RoundTrip(w, ids, resumed, yielded).Ok?
    ensures Returned(w, ids, RoundTrip(w, ids, resumed, yielded).value.world)
    ensures |ids| > 0 ==> RoundTrip(w, ids, resumed, yielded).value.restored == resumed[0]
    decreases |ids|
  {
    if |ids| > 0 {
      var down := PushFrame(w, ids[0], resumed[0]).value;
      PushedFresh(w, ids, down.world);
      assert forall i :: 0 <= i < |ids[1..]| ==> ids[1..][i] in down.world.heap;
      RoundTripLifo(down.world, ids[1..], resumed[1..], yielded[1..]);
      var inner := RoundTrip(down.world, ids[1..], resumed[1..], yielded[1..]).value;
      LifoStep(w, ids, resumed, yielded, down, inner);
    }
  }

  /** The outermost resume and yield of a nest whose inner part has
      already returned. */
  lemma LifoStep(w: World, ids: seq<CoId>, resumed: seq<Token>, yielded: seq<Token>, down: Switch, inner: Switch)
    requires WellFormed(w) && |w.stack.items| >= 1
    requires |resumed| == |ids| == |yielded| >= 1
    requires forall i :: 0 <= i < |ids| ==> ids[i] in w.heap
    requires Fresh(w, ids)
    requires PushFrame(w, ids[0], resumed[0]) == Ok(down)
    requires RoundTrip(down.world, ids[1..], resumed[1..], yielded[1..]) == Ok(inner)
    requires Returned(down.world, ids[1..], inner.world)
    ensures RoundTrip(w, ids, resumed, yielded).Ok?
    ensures Returned(w, ids, RoundTrip(w, ids, resumed, yielded).value.world)
    ensures RoundTrip(w, ids, resumed, yielded).value.restored == resumed[0]
  {
    assert |inner.world.stack.items| >= 2;
    var up := PopFrame(inner.world, yielded[0]);
    RoundTripUnfold(w, ids, resumed, yielded);
    NestReturned(w, ids, down.world, inner.world, up.value.world);
    assert down.world.heap[Top(w)].rsp == resumed[0];
  }

  lemma RoundTripUnfold(w: World, ids: seq<CoId>, resumed: seq<Token>, yielded: seq<Token>)
    requires WellFormed(w) && |w.stack.items| >= 1
    requires |resumed| == |ids| == |yielded| >= 1
    requires forall i :: 0 <= i < |ids| ==> ids[i] in w.heap
    requires RoundTrip(PushFrame(w, ids[0], resumed[0]).value.world, ids[1..], resumed[1..], yielded[1..]).Ok?
    ensures RoundTrip(w, ids, resumed, yielded)
            == PopFrame(RoundTrip(PushFrame(w, ids[0], resumed[0]).value.world, ids[1..], resumed[1..], yielded[1..]).value.world, yielded[0])
  {
  }

  /** `after` has the stack of `w`, the same records and id counter, and
      every record outside the nest `ids` and below the top is unchanged. */
  ghost predicate Returned(w: World, ids: seq<CoId>, after: World)
    requires |w.stack.items| >= 1
  {
    && after.stack.items == w.stack.items
    && after.heap.Keys == w.heap.Keys
    && after.nextId == w.nextId
    && WellFormed(after)
    && forall x :: x in w.heap && x != Top(w) && (forall i :: 0 <= i < |ids| ==> ids[i] != x) ==>
         after.heap[x] == w.heap[x]
  }

  lemma PushedFresh(w: World, ids: seq<CoId>, down: World)
    requires WellFormed(w) && |w.stack.items| >= 1 && |ids| >= 1
    requires Fresh(w, ids)
    requires down.stack.items == w.stack.items + [ids[0]]
    ensures Fresh(down, ids[1..])
  {
    var rest := ids[1..];
    forall i, k | 0 <= i < |rest| && 0 <= k < |down.stack.items|
      ensures rest[i] != down.stack.items[k]
    {
      assert rest[i] == ids[i + 1];
      if k < |w.stack.items| {
        assert down.stack.items[k] == w.stack.items[k];
      }
    }
  }

  lemma NestReturned(w: World, ids: seq<CoId>, down: World, inner: World, up: World)
    requires WellFormed(w) && |w.stack.items| >= 1 && |ids| >= 1
    requires Fresh(w, ids)
    requires down.stack.items == w.stack.items + [ids[0]]
    requires down.heap.Keys == w.heap.Keys && down.nextId == w.nextId
    requires forall x :: x in w.heap && x != Top(w) ==> down.heap[x] == w.heap[x]
    requires Returned(down, ids[1..], inner)
    requires up.stack.items == inner.stack.items[..|inner.stack.items| - 1]
    requires up.heap.Keys == inner.heap.Keys && up.nextId == inner.nextId && WellFormed(up)
    requires forall x :: x in inner.heap && x != Top(inner) ==> up.heap[x] == inner.heap[x]
    ensures Returned(w, ids, up)
    ensures |up.stack.items| >= 1 && Top(up) == Top(w)
    ensures up.heap[Top(w)] == down.heap[Top(w)]
  {
    assert Top(down) == ids[0];
    assert Top(inner) == ids[0];
    assert up.stack.items == w.stack.items;
    forall x | x in w.heap && x != Top(w) && (forall i :: 0 <= i < |ids| ==> ids[i] != x)
      ensures up.heap[x] == w.heap[x]
    {
      assert x != ids[0];
      assert forall i :: 0 <= i < |ids[1..]| ==> ids[1..][i] != x by {
        forall i | 0 <= i < |ids[1..]| ensures ids[1..][i] != x {
          assert ids[1..][i] == ids[i + 1];
        }
      }
    }
    assert Top(w) != ids[0] by {
      assert Top(w) == w.stack.items[|w.stack.items| - 1];
    }
    assert forall i :: 0 <= i < |ids[1..]| ==> ids[1..][i] != Top(w) by {
      forall i | 0 <= i < |ids[1..]| ensures ids[1..][i] != Top(w) {
        assert ids[1..][i] == ids[i + 1];
        assert Top(w) == w.stack.items[|w.stack.items| - 1];
      }
    }
  }

  /** From a fresh session with two created coroutines, resuming one from
      the root and the other from inside it, then yielding twice, leaves
      only the root, which continues where it resumed the first. */
  lemma InitRoundTrip(entry1: Token, entry2: Token, resumed: seq<Token>, yielded: seq<Token>)
    requires |resumed| == |yielded| == 2
    ensures var c1 := Create(Init(), entry1);
            var c2 := Create(c1.world, entry2);
            var r := RoundTrip(c2.world, [c1.id, c2.id], resumed, yielded);
            r.Ok? && r.value.world.stack.items == Init().stack.items && r.value.restored == resumed[0]
  {
    var c1 := Create(Init(), entry1);
    var c2 := Create(c1.world, entry2);
    assert Fresh(c2.world, [c1.id, c2.id]);
    RoundTripLifo(c2.world, [c1.id, c2.id], resumed, yielded);
  }

  /** A coroutine whose entry function has returned can never be resumed
      again without aborting. */
  lemma FinishedStaysUnresumable(w: World, rsp: Token, next: Token)
    requires WellFormed(w) && |w.stack.items| >= 2
    ensures FinishCurrent(w, rsp).Ok?
    ensures Resume(FinishCurrent(w, rsp).value.world, Top(w), next).Abort?
  {
  }
}
