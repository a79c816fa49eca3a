/** The execution discipline every entry point of the API layer follows: a
    straight-line sequence of fallible collaborator calls, each followed by
    `if err != nil { return ... }`, with `defer` statements registered along the
    way and run last-in-first-out when the function returns.

    A `plan` lists the calls in order. Running a plan executes its steps until
    the first step whose error is not tolerated, then unwinds the deferred calls
    registered so far. This is the reference semantics against which the
    imperative models of the entry points are proved. */
module Defer {
  import opened Calls

  /** When a deferred call fires: `defer unlock()` fires on every return; the
      rollback closures of sandbox creation fire only if the named `err`
      result is non-nil at return time. */
  datatype Guard = Always | OnError

  datatype Deferred = Deferred(call: Call, guard: Guard)

  /** One collaborator call of a straight-line body.
      `tolerated`: its error is ignored and the body continues.
      `registers`: deferred calls registered once the call has succeeded.
      `onFailure`: calls made explicitly before its error is returned. */
  datatype Step = Step(call: Call, tolerated: bool, registers: seq<Deferred>, onFailure: seq<Call>)

  /** The forward part of a run: calls made, error returned, deferred stack. */
  datatype Progress = Progress(executed: seq<Call>, err: Status, registered: seq<Deferred>)

  /** What an entry point returns, and every collaborator call it made. */
  datatype Outcome = Outcome(err: Status, trace: seq<Call>)

  /** A call whose error is returned as is and that registers nothing. */
  function Must(c: Call): Step {
    Step(c, false, [], [])
  }

  /** Taking a per-sandbox lock, followed by `defer unlock()`. */
  function LockStep(mode: LockMode, sandboxID: string): Step {
    Step(LockSandbox(mode, sandboxID), false, [Deferred(UnlockSandbox(mode, sandboxID), Always)], [])
  }

  /** The body goes on past this step. */
  predicate Passes(st: Step, o: Oracle) {
    o(st.call).Ok? || st.tolerated
  }

  function Registers(st: Step, o: Oracle): seq<Deferred> {
    if o(st.call).Ok? then st.registers else []
  }

  function CallsOf(plan: seq<Step>): seq<Call> {
    if plan == [] then [] else [plan[0].call] + CallsOf(plan[1..])
  }

  function Registered(plan: seq<Step>, o: Oracle): seq<Deferred> {
    if plan == [] then [] else Registers(plan[0], o) + Registered(plan[1..], o)
  }

  /** Runs the plan forward up to its first step that does not pass. */
  function Exec(plan: seq<Step>, o: Oracle): Progress {
    if plan == [] then Progress([], Ok, [])
    else
      var st := plan[0];
      if !Passes(st, o) then Progress([st.call] + st.onFailure, o(st.call), [])
      else
        var rest := Exec(plan[1..], o);
        Progress([st.call] + rest.executed, rest.err, Registers(st, o) + rest.registered)
  }

  /** The deferred calls that fire at return, top of the stack first. */
  function Unwind(stack: seq<Deferred>, err: Status): seq<Call> {
    if stack == [] then []
    else
      var top := stack[|stack| - 1];
      (if top.guard == Always || err.Err? then [top.call] else []) + Unwind(stack[..|stack| - 1], err)
  }

  /** The whole run of a straight-line body: forward calls, then deferred calls. */
  function Run(plan: seq<Step>, o: Oracle): Outcome {
    var p := Exec(plan, o);
    Outcome(p.err, p.executed + Unwind(p.registered, p.err))
  }

  ghost predicate AllPass(plan: seq<Step>, o: Oracle) {
    forall i :: 0 <= i < |plan| ==> Passes(plan[i], o)
  }

  /** Step `k` is the first step of the plan that does not pass. */
  ghost predicate FirstFailure(plan: seq<Step>, o: Oracle, k: nat) {
    k < |plan| && !Passes(plan[k], o) && AllPass(plan[..k], o)
  }

  /** Go's runtime processing of a function's deferred calls at return. */
  method RunDeferred(stack: seq<Deferred>, err: Status) returns (ran: seq<Call>)
    ensures ran == Unwind(stack, err)
  {
    ran := [];
    var i := |stack|;
    while i > 0
      invariant 0 <= i <= |stack|
      invariant ran == Unwind(stack[i..], err)
    {
      UnwindBelow(stack, i, err);
      i := i - 1;
      var d := stack[i];
      if d.guard == Always || err.Err? {
        ran := ran + [d.call];
      }
    }
    assert stack[0..] == stack;
  }

  /** Unwinding the entries from `i - 1` on fires entry `i - 1` after
      those above it. */
  lemma UnwindBelow(stack: seq<Deferred>, i: nat, err: Status)
    requires 0 < i <= |stack|
    ensures var d := stack[i - 1];
            Unwind(stack[i - 1..], err)
              == if d.guard == Always || err.Err? then Unwind(stack[i..], err) + [d.call] else Unwind(stack[i..], err)
  {
    var d := stack[i - 1];
    assert stack[i - 1..] == [d] + stack[i..];
    UnwindAppend([d], stack[i..], err);
    assert [d][..0] == [];
  }

  /** When every step passes, every call of the plan is made, in order, the
      result is nil, and every successful step's deferred calls are registered. */
  lemma {:induction false} ExecAllPass(plan: seq<Step>, o: Oracle)
    requires AllPass(plan, o)
    ensures Exec(plan, o) == Progress(CallsOf(plan), Ok, Registered(plan, o))
  {
    if plan != [] {
      assert AllPass(plan[1..], o) by {
        forall i | 0 <= i < |plan[1..]| ensures Passes(plan[1..][i], o) {
          assert plan[1..][i] == plan[i + 1];
        }
      }
      ExecAllPass(plan[1..], o);
    }
  }

  /** When step `k` is the first that does not pass, the calls before it and
      the call itself (with its explicit failure calls) are made, nothing after
      it runs, its error is the result, and only the deferred calls of the
      steps before it are registered. */
  lemma {:induction false} ExecFirstFailure(plan: seq<Step>, o: Oracle, k: nat)
    requires FirstFailure(plan, o, k)
    ensures Exec(plan, o)
         == Progress(CallsOf(plan[..k]) + [plan[k].call] + plan[k].onFailure, o(plan[k].call), Registered(plan[..k], o))
  {
    if k == 0 {
      assert plan[..0] == [];
    } else {
      assert plan[0] == plan[..k][0];
      assert plan[1..][..k - 1] == plan[..k][1..];
      var tail := plan[1..][..k - 1];
      assert FirstFailure(plan[1..], o, k - 1) by {
        forall i | 0 <= i < k - 1 ensures Passes(tail[i], o) {
          assert tail[i] == plan[..k][i + 1];
        }
      }
      ExecFirstFailure(plan[1..], o, k - 1);
    }
  }

  /** The result is nil exactly when every step passes. */
  lemma {:induction false} ExecOkIffAllPass(plan: seq<Step>, o: Oracle)
    ensures Exec(plan, o).err.Ok? <==> AllPass(plan, o)
  {
    if AllPass(plan, o) {
      ExecAllPass(plan, o);
    } else {
      var k := FirstBlocking(plan, o);
      ExecFirstFailure(plan, o, k);
    }
  }

  /** The index of the first step that does not pass, when there is one. */
  lemma {:induction false} FirstBlocking(plan: seq<Step>, o: Oracle) returns (k: nat)
    requires !AllPass(plan, o)
    ensures FirstFailure(plan, o, k)
  {
    if !Passes(plan[0], o) {
      k := 0;
      assert plan[..0] == [];
    } else {
      assert !AllPass(plan[1..], o) by {
        var i :| 0 <= i < |plan| && !Passes(plan[i], o);
        assert plan[1..][i - 1] == plan[i];
      }
      var j := FirstBlocking(plan[1..], o);
      k := j + 1;
      forall i | 0 <= i < k ensures Passes(plan[..k][i], o) {
        if i > 0 {
          assert plan[..k][i] == plan[1..][..j][i - 1];
        }
      }
    }
  }

  /** Running `a + b` stops within `a` when `a` fails. */
  lemma {:induction false} ExecAppendFails(a: seq<Step>, b: seq<Step>, o: Oracle)
    requires Exec(a, o).err.Err?
    ensures Exec(a + b, o) == Exec(a, o)
  {
    assert a != [];
    assert (a + b)[0] == a[0];
    assert (a + b)[1..] == a[1..] + b;
    if Passes(a[0], o) {
      ExecAppendFails(a[1..], b, o);
    }
  }

  /** Running `a + b` runs `b` after `a` when `a` does not fail. */
  lemma {:induction false} ExecAppendPasses(a: seq<Step>, b: seq<Step>, o: Oracle)
    requires Exec(a, o).err.Ok?
    ensures Exec(a + b, o)
         == Progress(Exec(a, o).executed + Exec(b, o).executed, Exec(b, o).err, Exec(a, o).registered + Exec(b, o).registered)
  {
    if a == [] {
      assert a + b == b;
    } else {
      var ab, st := a + b, a[0];
      assert ab[0] == st && ab[1..] == a[1..] + b;
      ExecAppendPasses(a[1..], b, o);
      var r, ra, rb := Exec(a[1..] + b, o), Exec(a[1..], o), Exec(b, o);
      assert Passes(st, o);
      assert Exec(a, o) == Progress([st.call] + ra.executed, ra.err, Registers(st, o) + ra.registered);
      assert Exec(ab, o) == Progress([st.call] + r.executed, r.err, Registers(st, o) + r.registered);
      AppendAssoc([st.call], ra.executed, rb.executed);
      AppendAssoc(Registers(st, o), ra.registered, rb.registered);
    }
  }

  lemma AppendAssoc<T>(x: seq<T>, y: seq<T>, z: seq<T>)
    ensures x + (y + z) == x + y + z
  {
  }

  /** Unwinding a stack built in two pieces unwinds the later piece first. */
  lemma {:induction false} UnwindAppend(x: seq<Deferred>, y: seq<Deferred>, err: Status)
    ensures Unwind(x + y, err) == Unwind(y, err) + Unwind(x, err)
  {
    if y == [] {
      assert x + y == x;
    } else {
      var s := x + y;
      assert s[|s| - 1] == y[|y| - 1];
      assert s[..|s| - 1] == x + y[..|y| - 1];
      UnwindAppend(x, y[..|y| - 1], err);
    }
  }

  /** On an error every deferred call fires, last registered first. */
  lemma {:induction false} UnwindOnError(stack: seq<Deferred>, err: Status)
    requires err.Err?
    ensures |Unwind(stack, err)| == |stack|
    ensures forall i :: 0 <= i < |stack| ==> Unwind(stack, err)[i] == stack[|stack| - 1 - i].call
  {
    if stack != [] {
      var init := stack[..|stack| - 1];
      UnwindOnError(init, err);
      forall i | 0 < i < |stack| ensures Unwind(stack, err)[i] == stack[|stack| - 1 - i].call {
        assert Unwind(stack, err)[i] == Unwind(init, err)[i - 1];
        assert init[|init| - 1 - (i - 1)] == stack[|stack| - 1 - i];
      }
    }
  }

  /** On success a stack of rollback closures fires nothing. */
  lemma {:induction false} UnwindOnSuccess(stack: seq<Deferred>)
    requires forall i :: 0 <= i < |stack| ==> stack[i].guard == OnError
    ensures Unwind(stack, Ok) == []
  {
    if stack != [] {
      UnwindOnSuccess(stack[..|stack| - 1]);
    }
  }

  /** A plan whose steps register nothing leaves an empty deferred stack. */
  lemma {:induction false} NoRegistrations(plan: seq<Step>, o: Oracle)
    requires forall i :: 0 <= i < |plan| ==> plan[i].registers == []
    ensures Exec(plan, o).registered == []
  {
    if plan != [] && Passes(plan[0], o) {
      NoRegistrations(plan[1..], o);
    }
  }

  /** Every call a forward run makes is a step's call or one of its explicit
      failure calls. */
  lemma {:induction false} ExecutedFromPlan(plan: seq<Step>, o: Oracle, c: Call)
    requires c in Exec(plan, o).executed
    ensures exists i :: 0 <= i < |plan| && (c == plan[i].call || c in plan[i].onFailure)
  {
    if c != plan[0].call && c !in plan[0].onFailure {
      ExecutedFromPlan(plan[1..], o, c);
      var i :| 0 <= i < |plan[1..]| && (c == plan[1..][i].call || c in plan[1..][i].onFailure);
      assert plan[1..][i] == plan[i + 1];
    }
  }

  /** Running one more step of a plan whose prefix has passed so far; when
      that step does not pass, it is where the whole plan stops. */
  lemma {:induction false} ExecExtend(plan: seq<Step>, k: nat, o: Oracle)
    requires k < |plan| && Exec(plan[..k], o).err.Ok?
    ensures var p, st := Exec(plan[..k], o), plan[k];
            Exec(plan[..k + 1], o)
              == if Passes(st, o) then Progress(p.executed + [st.call], Ok, p.registered + Registers(st, o))
                 else Progress(p.executed + [st.call] + st.onFailure, o(st.call), p.registered)
    ensures !Passes(plan[k], o) ==> Exec(plan, o) == Exec(plan[..k + 1], o)
  {
    assert plan[..k + 1] == plan[..k] + [plan[k]];
    ExecAppendPasses(plan[..k], [plan[k]], o);
    ExecSingle(plan[k], o);
    if !Passes(plan[k], o) {
      assert plan == plan[..k + 1] + plan[k + 1..];
      ExecAppendFails(plan[..k + 1], plan[k + 1..], o);
    }
  }

  /** A prefix as long as the plan is the plan. */
  lemma ExecWhole(plan: seq<Step>, k: nat, o: Oracle)
    requires k == |plan|
    ensures Exec(plan[..k], o) == Exec(plan, o)
  {
    assert plan[..k] == plan;
  }

  /** A call whose steps are all tolerated and register nothing cannot
      change a run, whatever its outcome. */
  lemma {:induction false} ExecIgnores(plan: seq<Step>, o: Oracle, o2: Oracle, c: Call)
    requires forall i :: 0 <= i < |plan| && plan[i].call == c ==> plan[i].tolerated && plan[i].registers == []
    requires forall d :: d != c ==> o(d) == o2(d)
    ensures Exec(plan, o) == Exec(plan, o2)
  {
    if plan != [] {
      ExecIgnores(plan[1..], o, o2, c);
    }
  }

  /** A one-step plan. */
  lemma ExecSingle(st: Step, o: Oracle)
    ensures Exec([st], o)
         == if Passes(st, o) then Progress([st.call], Ok, Registers(st, o))
            else Progress([st.call] + st.onFailure, o(st.call), [])
  {
    assert [st][1..] == [];
  }

  /** Running a plan one step at a time from the front. */
  lemma ExecCons(st: Step, rest: seq<Step>, o: Oracle)
    ensures Exec([st] + rest, o)
         == if !Passes(st, o) then Progress([st.call] + st.onFailure, o(st.call), [])
            else Progress([st.call] + Exec(rest, o).executed, Exec(rest, o).err, Registers(st, o) + Exec(rest, o).registered)
  {
    assert ([st] + rest)[0] == st && ([st] + rest)[1..] == rest;
  }
}
