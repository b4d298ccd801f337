/**
 * Text built by appending one piece per element, the shape of the
 * `push_str(&format!(..))` loops that assemble the messages and tables.
 */
module Text {

  /** The pieces `render(xs[0])`, `render(xs[1])`, ... one after the other. */
  function ConcatMap<T>(xs: seq<T>, render: T -> string): string {
    if xs == [] then "" else render(xs[0]) + ConcatMap(xs[1..], render)
  }

  /** The pieces of a concatenation are the pieces of each part, in order. */
  lemma {:induction false} ConcatMapAppend<T>(a: seq<T>, b: seq<T>, render: T -> string)
    ensures ConcatMap(a + b, render) == ConcatMap(a, render) + ConcatMap(b, render)
    decreases |a|
  {
    if a == [] {
      assert a + b == b;
    } else {
      ConcatMapAppend(a[1..], b, render);
      assert (a + b)[0] == a[0];
      assert (a + b)[1..] == a[1..] + b;
    }
  }

  /** Appending is associative; stated once so that long pieces need not be compared character by character. */
  lemma AppendAssoc<T>(a: seq<T>, b: seq<T>, c: seq<T>)
    ensures (a + b) + c == a + (b + c)
  {
  }

  /** As `ConcatMap`, with a fixed first argument `env` handed to every `render` call. */
  function ConcatMapWith<E, T>(env: E, xs: seq<T>, render: (E, T) -> string): string {
    if xs == [] then "" else render(env, xs[0]) + ConcatMapWith(env, xs[1..], render)
  }

  lemma {:induction false} ConcatMapWithAppend<E, T>(env: E, a: seq<T>, b: seq<T>, render: (E, T) -> string)
    ensures ConcatMapWith(env, a + b, render) == ConcatMapWith(env, a, render) + ConcatMapWith(env, b, render)
    decreases |a|
  {
    if a == [] {
      assert a + b == b;
    } else {
      ConcatMapWithAppend(env, a[1..], b, render);
      assert (a + b)[0] == a[0];
      assert (a + b)[1..] == a[1..] + b;
    }
  }
}
