/** Programs run on the scheduler: user code between two calls runs undisturbed, so a program is a
    function from its memory, the running thread and the result of that thread's last call to the
    next call and the new memory; no next call means the thread's code has ended. */
module Program {
  import opened Prelude
  import opened StateModel
  import opened Machine

  type Code<!M> = (M, Handle, int) -> (Option<Op>, M)

  datatype Config<M> = Config(s: Machine, mem: M)

  function Start<M>(main: Handle, mem: M): Config<M> {
    Config(Init(main), mem)
  }

  /** A step the program allows: a call must be the one its code makes next. */
  ghost predicate CanStep<M>(code: Code<M>, c: Config<M>, l: Label) {
    && Enabled(c.s, l)
    && (l.CallL? ==> code(c.mem, l.h, c.s.ctl[l.h].ret).0 == Some(l.op))
  }

  ghost function Advance<M>(code: Code<M>, c: Config<M>, l: Label, tape: Tape): Config<M>
    requires CanStep(code, c, l)
  {
    Config(Next(c.s, l, tape), if l.CallL? then code(c.mem, l.h, c.s.ctl[l.h].ret).1 else c.mem)
  }

  /** The machine's part of a run. */
  function Machines<M>(cs: seq<Config<M>>): (states: seq<Machine>)
    ensures |states| == |cs| && forall i :: 0 <= i < |cs| ==> states[i] == cs[i].s
  {
    seq(|cs|, i requires 0 <= i < |cs| => cs[i].s)
  }

  ghost predicate RunOf<M>(code: Code<M>, main: Handle, mem: M, tape: Tape, cs: seq<Config<M>>, ls: seq<Label>) {
    && |cs| == |ls| + 1
    && cs[0] == Start(main, mem)
    && forall i {:trigger ls[i]} :: 0 <= i < |ls| ==> CanStep(code, cs[i], ls[i]) && cs[i + 1] == Advance(code, cs[i], ls[i], tape)
  }
}
