/**
 * `str.format` with keyword arguments, as the pipeline uses it for table-name patterns
 * and view definitions: a template is literal text with named holes.  Brace escapes,
 * positional fields and format specifications are not part of this model.
 */
module Template {
  import opened Common

  datatype Piece = Lit(text: string) | Field(name: string)

  /** Every hole of `t` has a value in `env`. */
  predicate Bound(t: seq<Piece>, env: map<string, string>)
  {
    forall i :: 0 <= i < |t| && t[i].Field? ==> t[i].name in env
  }

  /** `template.format(**env)`: `None` stands for the `KeyError` raised on a hole without a value. */
  function Fill(t: seq<Piece>, env: map<string, string>): (r: Option<string>)
    ensures r.Some? <==> Bound(t, env)
  {
    if t == [] then Some("")
    else
      match Fill(t[1..], env)
      case None => None
      case Some(rest) =>
        match t[0]
        case Lit(text) => Some(text + rest)
        case Field(name) => if name in env then Some(env[name] + rest) else None
  }

  /** Filling a template piece by piece: the result of a concatenation is the concatenation of the results. */
  lemma {:induction false} FillConcat(a: seq<Piece>, b: seq<Piece>, env: map<string, string>)
    requires Bound(a, env) && Bound(b, env)
    ensures Fill(a + b, env) == Some(Fill(a, env).value + Fill(b, env).value)
  {
    if a != [] {
      assert (a + b)[1..] == a[1..] + b;
      assert (a + b)[0] == a[0];
      assert Bound(a[1..], env) by {
        forall i | 0 <= i < |a[1..]| && a[1..][i].Field? ensures a[1..][i].name in env {
          assert a[1..][i] == a[i + 1];
        }
      }
      FillConcat(a[1..], b, env);
      var x, y := Fill(a[1..], env).value, Fill(b, env).value;
      var head := if a[0].Lit? then a[0].text else env[a[0].name];
      assert Fill(a, env).value == head + x;
      assert Fill(a + b, env).value == head + (x + y);
      assert head + (x + y) == (head + x) + y;
    } else {
      assert a + b == b;
      assert Fill(a, env).value == "";
      assert "" + Fill(b, env).value == Fill(b, env).value;
    }
  }

  /** The text of a filled template depends on the values of its own holes and on nothing else in `env`. */
  lemma {:induction false} FillUsesOnlyItsFields(t: seq<Piece>, env1: map<string, string>, env2: map<string, string>)
    requires forall i :: 0 <= i < |t| && t[i].Field? ==> (t[i].name in env1 <==> t[i].name in env2)
    requires forall i :: 0 <= i < |t| && t[i].Field? && t[i].name in env1 ==> env1[t[i].name] == env2[t[i].name]
    ensures Fill(t, env1) == Fill(t, env2)
  {
    if t != [] {
      FillUsesOnlyItsFields(t[1..], env1, env2);
    }
  }
}
