/** Label environments: every superposition label carries an infinite stream of
    bits. Reading a SUP of that label takes a bit off the stream; looking
    through a DUP port puts the port's side back on it. Streams are kept in a
    canonical form, so that streams over the same base are equal values when they
    are equal. */
module Streams {

  /** A label fills the 18-bit EXT field of a term word. */
  const LABELS: nat := 0x40000

  type Label = lab: nat | lab < LABELS

  datatype Bits = Nil | Cons(head: bool, tail: Bits)

  /** The stream front ++ base(skip), base(skip + 1), ... for an arbitrary
      infinite bit sequence `base`; any infinite sequence s is Stream(Nil, s, 0). */
  datatype RawStream = Stream(front: Bits, base: nat -> bool, skip: nat) {

    /** Canonical form: no bit of `front` that `base` could supply itself. */
    ghost predicate Canonical() {
      skip > 0 && front != Nil ==> Last(front) != base(skip - 1)
    }

    ghost function Top(): bool {
      if front.Nil? then base(skip) else front.head
    }

    ghost function Rest(): RawStream {
      if front.Nil? then this.(skip := skip + 1) else this.(front := front.tail)
    }

    ghost function Put(b: bool): RawStream {
      if front.Nil? && skip > 0 && base(skip - 1) == b then this.(skip := skip - 1)
      else this.(front := Cons(b, front))
    }
  }

  ghost function Last(bits: Bits): bool
    requires bits != Nil
  {
    if bits.tail == Nil then bits.head else Last(bits.tail)
  }

  type Stream = s: RawStream | s.Canonical()
    ghost witness RawStream.Stream(Nil, (k: nat) => false, 0)

  type Env = env: seq<Stream> | |env| == LABELS
    ghost witness ZeroEnv()

  ghost function ZeroEnv(): seq<Stream> {
    seq(LABELS, _ => RawStream.Stream(Nil, (k: nat) => false, 0))
  }

  /** The bit that the next SUP with label `lab` reads. */
  ghost function Top(env: Env, lab: Label): bool {
    env[lab].Top()
  }

  ghost function Pop(env: Env, lab: Label): Env {
    env[lab := env[lab].Rest()]
  }

  ghost function Push(env: Env, lab: Label, b: bool): Env {
    env[lab := env[lab].Put(b)]
  }

  /** Reading back the bit that was just pushed restores the environment. */
  lemma PopPush(env: Env, lab: Label, b: bool)
    ensures Top(Push(env, lab, b), lab) == b
    ensures Pop(Push(env, lab, b), lab) == env
  {
  }

  /** Pushing the bit that was just read restores the environment. */
  lemma PushPop(env: Env, lab: Label)
    ensures Push(Pop(env, lab), lab, Top(env, lab)) == env
  {
  }

  /** Streams of different labels do not interfere. */
  lemma PushPopCommute(env: Env, pushed: Label, popped: Label, b: bool)
    requires pushed != popped
    ensures Top(Push(env, pushed, b), popped) == Top(env, popped)
    ensures Pop(Push(env, pushed, b), popped) == Push(Pop(env, popped), pushed, b)
  {
  }
}
