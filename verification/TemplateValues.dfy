/** What config values resolve to: text stays text, a reference becomes its variable's
    value, and parts resolve side by side. */
module TemplateValues {
  import opened Wrappers
  import opened Template

  /** Two values one after the other, when both are known. */
  function Joined(a: Option<string>, b: Option<string>): Option<string> {
    if a.Some? && b.Some? then Some(a.value + b.value) else None
  }

  lemma PartResolves(env: Env, name: string, text: string)
    ensures Resolve([], env) == Some("")
    ensures Resolve([Literal(text)], env) == Some(text)
    ensures name in env ==> Resolve([EnvVar(name)], env) == Some(env[name])
    ensures name !in env ==> Resolve([EnvVar(name)], env) == None
  {
    LiteralResolves(text, env);
    assert [EnvVar(name)][..0] == [];
    if name in env {
      assert "" + env[name] == env[name];
    }
  }

  lemma {:induction false} ConcatResolves(a: seq<Part>, b: seq<Part>, env: Env)
    ensures Resolve(a + b, env) == Joined(Resolve(a, env), Resolve(b, env))
  {
    if b == [] {
      assert a + b == a;
      assert Resolve(a, env).Some? ==> Resolve(a, env).value + "" == Resolve(a, env).value;
    } else {
      var front, p := b[..|b| - 1], b[|b| - 1];
      assert (a + b)[..|a + b| - 1] == a + front;
      ConcatResolves(a, front, env);
      if Resolve(a, env).Some? && Resolve(front, env).Some? {
        var x, y := Resolve(a, env).value, Resolve(front, env).value;
        JoinsLast(x, y, p, env);
      }
    }
  }

  lemma JoinsLast(x: string, y: string, p: Part, env: Env)
    ensures p.Literal? ==> (x + y) + p.value == x + (y + p.value)
    ensures p.EnvVar? && p.name in env ==> (x + y) + env[p.name] == x + (y + env[p.name])
  {
  }

  /** The value of a variable that is set, or nothing. */
  function ValueOf(name: string, env: Env): Option<string> {
    if name in env then Some(env[name]) else None
  }

  /** Text, a reference in braces, and more: the value is the text, the variable's value
      and what the rest resolves to, and there is none when either is missing. */
  lemma ReferenceResolves(text: string, name: string, tail: string, env: Env)
    requires ValidName(name)
    ensures Resolve(Parse(Escape(text) + ("${" + name + "}" + tail)), env)
            == Joined(Some(text), Joined(ValueOf(name, env), Resolve(Parse(tail), env)))
  {
    var before := AppendLiteral([], text);
    var acc := before + [EnvVar(name)];
    ScanEscaped(text, "${" + name + "}" + tail, []);
    ScanEnv(name, tail, before);
    assert acc + [] == acc;
    ScanAfter(tail, acc, []);
    ConcatResolves(acc, Parse(tail), env);
    ConcatResolves(before, [EnvVar(name)], env);
    PartResolves(env, name, text);
    assert text == "" ==> before == [];
    assert text != "" ==> before == [Literal(text)];
    JoinsThree(text, ValueOf(name, env), Resolve(Parse(tail), env));
  }

  lemma JoinsThree(x: string, y: Option<string>, z: Option<string>)
    ensures Joined(Joined(Some(x), y), z) == Joined(Some(x), Joined(y, z))
  {
    if y.Some? && z.Some? {
      assert (x + y.value) + z.value == x + (y.value + z.value);
    }
  }
}
