/**
 * The Icecast configuration is produced from a template by four global
 * regular-expression replacements, one per `${NAME}` placeholder, each
 * replaced by an environment variable or, when that is unset or empty, a
 * built-in default.
 */
module Template {

  predicate OccursAt(s: string, p: string, i: int) {
    0 <= i && i + |p| <= |s| && s[i..i + |p|] == p
  }

  predicate Occurs(s: string, p: string) {
    exists i | 0 <= i <= |s| - |p| :: OccursAt(s, p, i)
  }

  /**
   * `s.replace(/p/g, v)` for a literal pattern `p`: the matches are found from
   * left to right and do not overlap. A string without a match is returned as is.
   */
  function ReplaceAll(s: string, p: string, v: string): (r: string)
    requires |p| > 0
    ensures !Occurs(s, p) ==> r == s
    decreases |s|
  {
    if |s| < |p| then s
    else if s[..|p|] == p then assert OccursAt(s, p, 0); v + ReplaceAll(s[|p|..], p, v)
    else
      assert forall i :: OccursAt(s[1..], p, i) ==> OccursAt(s, p, i + 1) by {
        forall i | OccursAt(s[1..], p, i) ensures OccursAt(s, p, i + 1) {
          assert s[1..][i..i + |p|] == s[i + 1..i + 1 + |p|];
        }
      }
      [s[0]] + ReplaceAll(s[1..], p, v)
  }

  function Placeholder(name: string): string {
    "${" + name + "}"
  }

  /** Replacing at the front of the text: a match there is replaced and the scan goes on after it. */
  lemma MatchAtStart(p: string, b: string, v: string)
    requires |p| > 0
    ensures ReplaceAll(p + b, p, v) == v + ReplaceAll(b, p, v)
  {
    assert (p + b)[..|p|] == p && (p + b)[|p|..] == b;
  }

  /** Text without a `$` cannot start a `${NAME}` match, so the scan passes over it unchanged. */
  lemma {:induction false} SkipPlain(a: string, b: string, p: string, v: string)
    requires |p| > 0 && p[0] == '$' && '$' !in a
    ensures ReplaceAll(a + b, p, v) == a + ReplaceAll(b, p, v)
    decreases |a|
  {
    if a != [] {
      var t := a + b;
      if |t| < |p| {
        assert ReplaceAll(b, p, v) == b;
      } else {
        assert t[..|p|][0] == a[0] != '$';
        assert t[1..] == a[1..] + b;
        SkipPlain(a[1..], b, p, v);
        assert a == [a[0]] + a[1..];
      }
    } else {
      assert a + b == b;
    }
  }

  lemma PlainUnchanged(a: string, p: string, v: string)
    requires |p| > 0 && p[0] == '$' && '$' !in a
    ensures ReplaceAll(a, p, v) == a
  {
    SkipPlain(a, [], p, v);
    assert a + [] == a;
  }

  /** A placeholder standing between two `$`-free stretches of text is replaced by the value. */
  lemma ReplaceOne(a: string, p: string, b: string, v: string)
    requires |p| > 0 && p[0] == '$' && '$' !in a && '$' !in b
    ensures ReplaceAll(a + p + b, p, v) == a + v + b
  {
    assert a + p + b == a + (p + b);
    SkipPlain(a, p + b, p, v);
    MatchAtStart(p, b, v);
    PlainUnchanged(b, p, v);
  }

  /** The characters a placeholder name may not contain. */
  predicate PlainName(k: string) {
    '$' !in k && '{' !in k && '}' !in k
  }

  /** `${k}` is not a prefix of `${k'}` followed by anything, for another name `k'`. */
  lemma PlaceholderNotPrefix(k: string, k2: string, b: string)
    requires k != k2 && PlainName(k) && PlainName(k2)
    requires |Placeholder(k2)| <= |Placeholder(k) + b|
    ensures (Placeholder(k) + b)[..|Placeholder(k2)|] != Placeholder(k2)
  {
    var t := Placeholder(k) + b;
    var q := Placeholder(k2);
    if |k2| < |k| {
      assert t[|k2| + 2] == k[|k2|] && q[|k2| + 2] == '}';
    } else if |k| < |k2| {
      assert t[|k| + 2] == '}' && q[|k| + 2] == k2[|k|];
    } else {
      assert t[2..|k| + 2] == k && q[2..|k2| + 2] == k2;
    }
  }

  /** Replacing one placeholder leaves another one, and the `$`-free text around it, alone. */
  lemma OtherPlaceholderUntouched(a: string, k: string, k2: string, b: string, v: string)
    requires k != k2 && PlainName(k) && PlainName(k2) && '$' !in a && '$' !in b
    ensures ReplaceAll(a + Placeholder(k) + b, Placeholder(k2), v) == a + Placeholder(k) + b
  {
    var q := Placeholder(k2);
    var t := Placeholder(k) + b;
    assert a + Placeholder(k) + b == a + t;
    SkipPlain(a, t, q, v);
    if |q| <= |t| {
      PlaceholderNotPrefix(k, k2, b);
      assert '$' !in t[1..] by {
        assert t[1..] == ("{" + k + "}") + b;
      }
      PlainUnchanged(t[1..], q, v);
      assert t == [t[0]] + t[1..];
    }
  }

  /** The four placeholders, in the order they are substituted, with their built-in defaults. */
  const Keys: seq<string> := ["ICECAST_SOURCE_PASSWORD", "ICECAST_RELAY_PASSWORD", "ICECAST_ADMIN_PASSWORD", "ICECAST_HOSTNAME"]
  const Defaults: seq<string> := ["webradio_source_2025", "webradio_relay_2025", "webradio_admin_2025", "webradio-paroquia.onrender.com"]

  /** `process.env[key] || fallback`: an unset or empty variable yields the fallback. */
  function EnvOr(env: map<string, string>, key: string, fallback: string): string {
    if key in env && env[key] != "" then env[key] else fallback
  }

  /** The value that placeholder `i` is replaced by. */
  function ValueOf(env: map<string, string>, i: nat): string
    requires i < 4
  {
    EnvOr(env, Keys[i], Defaults[i])
  }

  /** One `.replace(/\${KEY}/g, ...)` of the chain. */
  function Substitute(t: string, env: map<string, string>, i: nat): string
    requires i < 4
  {
    ReplaceAll(t, Placeholder(Keys[i]), ValueOf(env, i))
  }

  /** The configuration written to icecast.xml, given the template text and the environment. */
  function IcecastConfig(template: string, env: map<string, string>): (config: string)
    ensures (forall i :: 0 <= i < 4 ==> !Occurs(template, Placeholder(Keys[i]))) ==> config == template
  {
    assert !Occurs(template, Placeholder(Keys[0])) ==> Substitute(template, env, 0) == template;
    Substitute(Substitute(Substitute(Substitute(template, env, 0), env, 1), env, 2), env, 3)
  }

  lemma KeysArePlain()
    ensures forall i :: 0 <= i < 4 ==> PlainName(Keys[i]) && |Placeholder(Keys[i])| > 0 && Placeholder(Keys[i])[0] == '$'
    ensures forall i, j :: 0 <= i < j < 4 ==> Keys[i] != Keys[j]
    ensures forall i :: 0 <= i < 4 ==> '$' !in Defaults[i]
  {
  }

  /**
   * A template holding placeholder `i` once, between two `$`-free stretches of
   * text, becomes that text with the placeholder replaced by its environment
   * value or default, for every environment whose chosen value has no `$`.
   */
  lemma IcecastSubstitutes(a: string, b: string, env: map<string, string>, i: nat)
    requires i < 4 && '$' !in a && '$' !in b && '$' !in ValueOf(env, i)
    ensures IcecastConfig(a + Placeholder(Keys[i]) + b, env) == a + ValueOf(env, i) + b
  {
    KeysArePlain();
    var t := a + Placeholder(Keys[i]) + b;
    var r := a + ValueOf(env, i) + b;
    assert '$' !in r;
    forall j | 0 <= j < 4
      ensures Substitute(r, env, j) == r
      ensures j != i ==> Substitute(t, env, j) == t
    {
      PlainUnchanged(r, Placeholder(Keys[j]), ValueOf(env, j));
      if j != i {
        OtherPlaceholderUntouched(a, Keys[i], Keys[j], b, ValueOf(env, j));
      }
    }
    ReplaceOne(a, Placeholder(Keys[i]), b, ValueOf(env, i));
    assert Substitute(t, env, i) == r;
  }

  /** An empty environment variable falls back to the default, exactly like an unset one. */
  lemma UnsetOrEmptyFallsBack(a: string, b: string, env: map<string, string>, i: nat)
    requires i < 4 && '$' !in a && '$' !in b
    requires Keys[i] !in env || env[Keys[i]] == ""
    ensures IcecastConfig(a + Placeholder(Keys[i]) + b, env) == a + Defaults[i] + b
  {
    KeysArePlain();
    IcecastSubstitutes(a, b, env, i);
  }
}
