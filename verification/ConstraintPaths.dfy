/**
 Paths as the program spells them: `applied_defaults` is a dict keyed by joined strings. What a
 dict of spelled paths keeps of the defaults, and when the spelling determines the path.
*/
module ConstraintPaths {
  import opened ConstraintSchema

  /** `_join` along a path. */
  function Dotted(names: seq<string>): string {
    if names == [] then ""
    else
      var prefix := Dotted(names[..|names| - 1]);
      if prefix == "" then names[|names| - 1] else prefix + "." + names[|names| - 1]
  }

  function Digit(d: nat): char
    requires d < 10
  {
    "0123456789"[d]
  }

  /** `str(index)`. */
  function Decimal(i: nat): string {
    (if i < 10 then "" else Decimal(i / 10)) + [Digit(i % 10)]
  }

  function Name(step: Step): string {
    match step case Key(name) => name case Index(i) => Decimal(i)
  }

  function Names(path: Path): seq<string> {
    seq(|path|, i requires 0 <= i < |path| => Name(path[i]))
  }

  function Spelled(path: Path): string { Dotted(Names(path)) }

  /** The spelling in an error: the root is `$`. */
  function Located(path: Path): string { if Spelled(path) == "" then "$" else Spelled(path) }

  /** A dict that was given the defaults `d` under their spelled paths, in some order. */
  ghost predicate Records(printed: map<string, Value>, d: imap<Path, Value>) {
    && (forall p | p in d :: Spelled(p) in printed)
    && (forall k | k in printed :: exists p | p in d :: Spelled(p) == k && d[p] == printed[k])
  }

  // ---------- What the dict keeps ----------

  ghost predicate Distinct(paths: set<Path>) {
    forall p, q | p in paths && q in paths && Spelled(p) == Spelled(q) :: p == q
  }

  function Spellings(paths: set<Path>): set<string> { set p | p in paths :: Spelled(p) }

  lemma {:induction false} SpellingsCount(paths: set<Path>)
    ensures |Spellings(paths)| <= |paths|
    ensures |Spellings(paths)| == |paths| <==> Distinct(paths)
  {
    if paths != {} {
      var p :| p in paths;
      var rest := paths - {p};
      SpellingsCount(rest);
      assert Spellings(paths) == Spellings(rest) + {Spelled(p)};
      if Spelled(p) in Spellings(rest) {
        var q :| q in rest && Spelled(q) == Spelled(p);
        assert !Distinct(paths);
      } else {
        assert Distinct(paths) <==> Distinct(rest);
      }
    }
  }

  /** The dict has at most one entry for each default, and all of them, unchanged, exactly when no
      two recorded paths are spelled alike. */
  lemma EntriesKeptExactly(printed: map<string, Value>, d: imap<Path, Value>, paths: set<Path>)
    requires Records(printed, d) && forall p :: p in paths <==> p in d
    ensures |printed| <= |paths|
    ensures |printed| == |paths| <==> Distinct(paths)
    ensures Distinct(paths) ==> forall p | p in d :: printed[Spelled(p)] == d[p]
  {
    SpellingsCount(paths);
    assert printed.Keys == Spellings(paths);
  }

  // ---------- When the spelling determines the path ----------

  predicate Plain(name: string) { name != "" && '.' !in name }

  lemma DotInside(p: string, x: string)
    ensures '.' in p + "." + x
  {
    assert (p + "." + x)[|p|] == '.';
  }

  lemma LaterDot(p: string, x: string, q: string, y: string)
    requires |p| < |q| && p + "." + x == q + "." + y
    ensures '.' in x
  {
    assert (p + "." + x)[|q|] == '.';
    assert x[|q| - |p| - 1] == '.';
  }

  lemma LastDot(p: string, x: string, q: string, y: string)
    requires '.' !in x && '.' !in y && p + "." + x == q + "." + y
    ensures p == q && x == y
  {
    var s := p + "." + x;
    if |p| < |q| { LaterDot(p, x, q, y); }
    if |q| < |p| { LaterDot(q, y, p, x); }
    assert p == s[..|p|] && q == s[..|q|];
    assert x == s[|p| + 1..] && y == s[|q| + 1..];
  }

  lemma DottedEmpty(ps: seq<string>)
    requires forall n | n in ps :: Plain(n)
    ensures Dotted(ps) == "" <==> ps == []
  {
    if ps != [] { assert ps[|ps| - 1] in ps; }
  }

  /** Non-empty names without dots are spelled unambiguously, so the strings the program
      records for them stand for exactly one path. */
  lemma {:induction false} DottedInjective(ps: seq<string>, qs: seq<string>)
    requires forall n | n in ps :: Plain(n)
    requires forall n | n in qs :: Plain(n)
    requires Dotted(ps) == Dotted(qs)
    ensures ps == qs
  {
    DottedEmpty(ps);
    DottedEmpty(qs);
    if ps != [] && qs != [] {
      var p, q := ps[..|ps| - 1], qs[..|qs| - 1];
      var x, y := ps[|ps| - 1], qs[|qs| - 1];
      assert ps == p + [x] && qs == q + [y];
      assert Plain(x) && Plain(y) by { assert x in ps && y in qs; }
      DottedEmpty(p);
      DottedEmpty(q);
      if p != [] && q != [] {
        LastDot(Dotted(p), x, Dotted(q), y);
        DottedInjective(p, q);
      } else if p != [] {
        DotInside(Dotted(p), x);
      } else if q != [] {
        DotInside(Dotted(q), y);
      }
    }
  }

  // ---------- Defaults under plain names ----------

  lemma {:induction false} DecimalPlain(i: nat)
    ensures Plain(Decimal(i))
  {
    if i >= 10 { DecimalPlain(i / 10); }
  }

  lemma {:induction false} DecimalInjective(i: nat, j: nat)
    requires Decimal(i) == Decimal(j)
    ensures i == j
  {
    var a, b := Decimal(i), Decimal(j);
    assert a[|a| - 1] == Digit(i % 10) && b[|b| - 1] == Digit(j % 10);
    assert a[..|a| - 1] == (if i < 10 then "" else Decimal(i / 10));
    assert b[..|b| - 1] == (if j < 10 then "" else Decimal(j / 10));
    if i >= 10 { DecimalPlain(i / 10); }
    if j >= 10 { DecimalPlain(j / 10); }
    if i >= 10 && j >= 10 { DecimalInjective(i / 10, j / 10); }
  }

  ghost predicate PlainKeys(path: Path) {
    forall i | 0 <= i < |path| && path[i].Key? :: Plain(path[i].name)
  }

  /** Steps that start from the same value are both keys or both indices. */
  predicate Alike(p: Path, q: Path) {
    p == [] || q == [] || (p[0].Key? == q[0].Key? && (p[0] == q[0] ==> Alike(p[1..], q[1..])))
  }

  lemma {:induction false} AlikeNames(p: Path, q: Path)
    requires Alike(p, q) && Names(p) == Names(q)
    ensures p == q
  {
    if p != [] && q != [] {
      assert Names(p)[0] == Name(p[0]) && Names(q)[0] == Name(q[0]);
      if p[0].Index? { DecimalInjective(p[0].i, q[0].i); }
      assert Names(p)[1..] == Names(p[1..]) && Names(q)[1..] == Names(q[1..]);
      AlikeNames(p[1..], q[1..]);
    } else {
      assert |Names(p)| == |Names(q)|;
    }
  }

  lemma {:induction false} DefaultsAlike(v: Value, s: Schema, p: Path, q: Path)
    requires p in DefaultsOf(v, s) && q in DefaultsOf(v, s)
    ensures Alike(p, q)
    decreases s
  {
    if p[0] == q[0] && p[1..] != [] && q[1..] != [] {
      if v.Arr? {
        DefaultsAlike(v.items[p[0].i], Items(s).value, p[1..], q[1..]);
      } else {
        var k := p[0].name;
        DefaultsAlike(WithDefaults(v.fields, s)[k], FieldSchema(s, k).value, p[1..], q[1..]);
      }
    }
  }

  /** As long as the keys on the recorded paths are not empty and hold no dot, nothing is lost. */
  lemma PlainKeysLoseNothing(v: Value, s: Schema, paths: set<Path>)
    requires forall p :: p in paths <==> p in DefaultsOf(v, s)
    requires forall p | p in paths :: PlainKeys(p)
    ensures Distinct(paths)
  {
    forall p, q | p in paths && q in paths && Spelled(p) == Spelled(q) ensures p == q {
      PlainNames(p);
      PlainNames(q);
      DottedInjective(Names(p), Names(q));
      DefaultsAlike(v, s, p, q);
      AlikeNames(p, q);
    }
  }

  lemma PlainNames(p: Path)
    requires PlainKeys(p)
    ensures forall n | n in Names(p) :: Plain(n)
  {
    forall i | 0 <= i < |p| ensures Plain(Names(p)[i]) {
      if p[i].Index? { DecimalPlain(p[i].i); }
    }
  }
}
