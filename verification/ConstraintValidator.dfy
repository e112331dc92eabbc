/**
 The validator itself: recursion over value and schema, errors appended to a shared list,
 defaults written to a shared dict, the normalised object updated in loops.

 Errors carry path and code. While the validator runs, paths are kept as sequences of keys and
 indices; the result has them as the program spells them.
*/
module ConstraintValidator {
  import opened Options
  import opened ConstraintSchema
  import opened ConstraintPaths

  datatype ConstraintError = ConstraintError(path: Path, code: Code)

  datatype ReportedError = ReportedError(path: string, code: Code)

  datatype ConstraintValidationResult = ConstraintValidationResult(
    valid: bool,
    normalizedConstraints: map<string, Value>,
    errors: seq<ReportedError>,
    warnings: seq<string>,
    appliedDefaults: map<string, Value>)

  /** The error list and the defaults dict one validation run shares between its calls. */
  class Findings {
    var errors: seq<ConstraintError>
    var defaults: map<Path, Value>

    constructor ()
      ensures errors == [] && defaults == map[]
    {
      errors, defaults := [], map[];
    }
  }

  // ---------- What a call adds to the findings ----------

  ghost predicate Added(before: seq<ConstraintError>, after: seq<ConstraintError>, path: Path, reports: iset<Report>) {
    && before <= after
    && forall e :: e in after[|before|..] <==> path <= e.path && (e.path[|path|..], e.code) in reports
  }

  ghost predicate AddedDefaults(before: map<Path, Value>, after: map<Path, Value>, path: Path, d: imap<Path, Value>) {
    && (forall p :: p in after <==> p in before || (path <= p && p[|path|..] in d))
    && (forall p | p in after :: after[p] == if path <= p && p[|path|..] in d then d[p[|path|..]] else before[p])
  }

  ghost function Under(step: Step, reports: iset<Report>): iset<Report> {
    iset e: Report | e.0 != [] && e.0[0] == step && (e.0[1..], e.1) in reports
  }

  ghost function UnderDefaults(step: Step, d: imap<Path, Value>): imap<Path, Value> {
    imap p: Path | p != [] && p[0] == step && p[1..] in d :: d[p[1..]]
  }

  lemma AddedThen(a: seq<ConstraintError>, b: seq<ConstraintError>, c: seq<ConstraintError>, path: Path,
                  r1: iset<Report>, r2: iset<Report>)
    requires Added(a, b, path, r1) && Added(b, c, path, r2)
    ensures Added(a, c, path, r1 + r2)
  {
    assert c[|a|..] == b[|a|..] + c[|b|..];
  }

  lemma AddedUnder(a: seq<ConstraintError>, b: seq<ConstraintError>, path: Path, step: Step, r: iset<Report>)
    requires Added(a, b, path + [step], r)
    ensures Added(a, b, path, Under(step, r))
  {
    forall e: ConstraintError
      ensures path + [step] <= e.path && (e.path[|path + [step]|..], e.code) in r
              <==> path <= e.path && (e.path[|path|..], e.code) in Under(step, r)
    {
      if path <= e.path && |e.path| > |path| {
        assert e.path[|path|..][1..] == e.path[|path + [step]|..];
        assert e.path[|path|] == step ==> path + [step] == e.path[..|path| + 1];
      }
    }
  }

  lemma AddedOne(a: seq<ConstraintError>, path: Path, rest: Path, code: Code)
    ensures Added(a, a + [ConstraintError(path + rest, code)], path, iset{(rest, code)})
  {
    var e := ConstraintError(path + rest, code);
    assert (a + [e])[|a|..] == [e];
    assert e.path[|path|..] == rest;
    forall f: ConstraintError | path <= f.path && (f.path[|path|..], f.code) == (rest, code) ensures f == e {
      assert f.path == path + f.path[|path|..];
    }
  }

  lemma AddedDefaultsUnder(a: map<Path, Value>, b: map<Path, Value>, path: Path, step: Step, d: imap<Path, Value>)
    requires AddedDefaults(a, b, path + [step], d)
    ensures AddedDefaults(a, b, path, UnderDefaults(step, d))
  {
    forall p: Path
      ensures path + [step] <= p && p[|path + [step]|..] in d <==> path <= p && p[|path|..] in UnderDefaults(step, d)
      ensures path <= p && p[|path|..] in UnderDefaults(step, d) ==> UnderDefaults(step, d)[p[|path|..]] == d[p[|path + [step]|..]]
    {
      if path <= p && |p| > |path| {
        assert p[|path|..][1..] == p[|path + [step]|..];
        assert p[|path|] == step ==> path + [step] == p[..|path| + 1];
      }
    }
  }

  /** Two additions in a row, where the second does not touch what the first wrote. */
  lemma AddedDefaultsThen(a: map<Path, Value>, b: map<Path, Value>, c: map<Path, Value>, path: Path,
                          d1: imap<Path, Value>, d2: imap<Path, Value>)
    requires AddedDefaults(a, b, path, d1) && AddedDefaults(b, c, path, d2)
    ensures AddedDefaults(a, c, path, d1 + d2)
  {
  }

  lemma AddedDefaultHere(a: map<Path, Value>, path: Path, k: string, v: Value)
    ensures AddedDefaults(a, a[path + [Key(k)] := v], path, UnderDefaults(Key(k), imap[[] := v]))
  {
    var q, d := path + [Key(k)], UnderDefaults(Key(k), imap[[] := v]);
    assert q[|path|..] == [Key(k)] && [Key(k)][1..] == [];
    forall p: Path | path <= p ensures p[|path|..] in d <==> p == q {
      SingleStep(p[|path|..], k, v);
      assert p == path + p[|path|..];
    }
    SingleStep([Key(k)], k, v);
  }

  lemma SingleStep(r: Path, k: string, v: Value)
    ensures var d := UnderDefaults(Key(k), imap[[] := v]); (r in d <==> r == [Key(k)]) && ([Key(k)] in d ==> d[[Key(k)]] == v)
  {
    assert [Key(k)][1..] == [];
    if r != [] && r[1..] == [] { assert r == [r[0]]; }
  }

  lemma AddedErrorHere(a: seq<ConstraintError>, path: Path, k: string, code: Code)
    ensures Added(a, a + [ConstraintError(path + [Key(k)], code)], path, Under(Key(k), iset{([], code)}))
  {
    AddedOne(a, path, [Key(k)], code);
    forall e: Report ensures e in Under(Key(k), iset{([], code)}) <==> e in iset{([Key(k)], code)} {
      if e.0 != [] && e.0[1..] == [] { assert e.0 == [e.0[0]]; }
      assert [Key(k)][1..] == [];
    }
  }

  /** A call for a child of `path`, after what was added so far. */
  lemma AddedBelow(a: seq<ConstraintError>, b: seq<ConstraintError>, c: seq<ConstraintError>, path: Path,
                   r: iset<Report>, step: Step, extra: iset<Report>)
    requires Added(a, b, path, r) && Added(b, c, path + [step], extra)
    ensures Added(a, c, path, r + Under(step, extra))
  {
    AddedUnder(b, c, path, step, extra);
    AddedThen(a, b, c, path, r, Under(step, extra));
  }

  lemma AddedDefaultsBelow(a: map<Path, Value>, b: map<Path, Value>, c: map<Path, Value>, path: Path,
                           d: imap<Path, Value>, step: Step, extra: imap<Path, Value>)
    requires AddedDefaults(a, b, path, d) && AddedDefaults(b, c, path + [step], extra)
    ensures AddedDefaults(a, c, path, d + UnderDefaults(step, extra))
  {
    AddedDefaultsUnder(b, c, path, step, extra);
    AddedDefaultsThen(a, b, c, path, d, UnderDefaults(step, extra));
  }

  // ---------- What the loops of `_validate_object` work towards ----------

  /** The full account of one object: its fields with defaults (`w`) and normalised (`target`),
      the names it was `given`, and what validating each field adds to the findings. */
  datatype Account = Account(
    w: map<string, Value>,
    target: map<string, Value>,
    given: set<string>,
    within: map<string, iset<Report>>,
    defaults: map<string, imap<Path, Value>>)
  {
    ghost predicate Valid() {
      target.Keys == w.Keys == within.Keys == defaults.Keys && given <= w.Keys
    }
  }

  ghost function AccountOf(m: map<string, Value>, s: Schema): (a: Account)
    ensures a.Valid()
  {
    var w := WithDefaults(m, s);
    Account(w,
      map k | k in w :: if FieldSchema(s, k).Some? then Fill(w[k], FieldSchema(s, k).value) else w[k],
      m.Keys,
      map k | k in w :: if FieldSchema(s, k).Some? then ErrorSet(w[k], FieldSchema(s, k).value) else iset{},
      map k | k in w :: if FieldSchema(s, k).Some? then DefaultsOf(w[k], FieldSchema(s, k).value) else imap[])
  }

  /** How far the loops are: names whose default was considered, names validated, and the
      names found missing or not allowed. */
  datatype Progress = Progress(filled: set<string>, done: set<string>, missing: set<string>, refused: set<string>)

  /** The normalised fields at that point. */
  ghost function FieldsAt(a: Account, g: Progress): map<string, Value>
    requires a.Valid()
  {
    map k | k in a.w && (k in a.given || k in g.filled) :: if k in g.done then a.target[k] else a.w[k]
  }

  ghost predicate ErrorAt(a: Account, g: Progress, k: string, tail: Path, code: Code)
    requires a.Valid()
  {
    || (tail == [] && code == Required && k in g.missing)
    || (tail == [] && code == AdditionalProperty && k in g.refused)
    || (k in g.done && k in a.w && (tail, code) in a.within[k])
  }

  ghost function ErrorsAt(a: Account, g: Progress): iset<Report>
    requires a.Valid()
  {
    iset e: Report | e.0 != [] && e.0[0].Key? && ErrorAt(a, g, e.0[0].name, e.0[1..], e.1)
  }

  ghost function DefaultAt(a: Account, g: Progress, k: string): imap<Path, Value>
    requires a.Valid()
  {
    (if k in g.filled && k in a.w && k !in a.given then imap[[] := a.w[k]] else imap[])
    + (if k in g.done && k in a.w then a.defaults[k] else imap[])
  }

  ghost function DefaultsAt(a: Account, g: Progress): imap<Path, Value>
    requires a.Valid()
  {
    imap p: Path | p != [] && p[0].Key? && p[1..] in DefaultAt(a, g, p[0].name)
      :: DefaultAt(a, g, p[0].name)[p[1..]]
  }

  /** Changing what is recorded at field `k` changes the record below `k` only. */
  lemma ErrorsStep(a: Account, g: Progress, g': Progress, k: string, extra: iset<Report>)
    requires a.Valid()
    requires forall j, tail, code | j != k :: ErrorAt(a, g', j, tail, code) == ErrorAt(a, g, j, tail, code)
    requires forall tail, code :: ErrorAt(a, g', k, tail, code) <==> ErrorAt(a, g, k, tail, code) || (tail, code) in extra
    ensures ErrorsAt(a, g') == ErrorsAt(a, g) + Under(Key(k), extra)
  {
    forall e: Report ensures e in ErrorsAt(a, g') <==> e in ErrorsAt(a, g) + Under(Key(k), extra) {
      if e.0 != [] && e.0[0].Key? {
        assert ErrorAt(a, g', e.0[0].name, e.0[1..], e.1) ==
          (ErrorAt(a, g, e.0[0].name, e.0[1..], e.1) || (e.0[0].name == k && (e.0[1..], e.1) in extra));
      }
    }
  }

  lemma DefaultsStep(a: Account, g: Progress, g': Progress, k: string, extra: imap<Path, Value>)
    requires a.Valid()
    requires forall j | j != k :: DefaultAt(a, g', j) == DefaultAt(a, g, j)
    requires DefaultAt(a, g', k) == DefaultAt(a, g, k) + extra
    ensures DefaultsAt(a, g') == DefaultsAt(a, g) + UnderDefaults(Key(k), extra)
  {
    forall p: Path ensures AgreeAt(DefaultsAt(a, g'), DefaultsAt(a, g) + UnderDefaults(Key(k), extra), p) {
      DefaultsStepAt(a, g, g', k, extra, p);
    }
    AgreeEverywhere(DefaultsAt(a, g'), DefaultsAt(a, g) + UnderDefaults(Key(k), extra));
  }

  ghost predicate AgreeAt(l: imap<Path, Value>, r: imap<Path, Value>, p: Path) {
    (p in l <==> p in r) && (p in l ==> l[p] == r[p])
  }

  lemma AgreeEverywhere(l: imap<Path, Value>, r: imap<Path, Value>)
    requires forall p: Path :: AgreeAt(l, r, p)
    ensures l == r
  {
    forall p: Path ensures (p in l <==> p in r) && (p in l ==> l[p] == r[p]) { assert AgreeAt(l, r, p); }
  }

  lemma DefaultsStepAt(a: Account, g: Progress, g': Progress, k: string, extra: imap<Path, Value>, p: Path)
    requires a.Valid()
    requires p != [] && p[0].Key? && p[0].name != k ==> DefaultAt(a, g', p[0].name) == DefaultAt(a, g, p[0].name)
    requires DefaultAt(a, g', k) == DefaultAt(a, g, k) + extra
    ensures AgreeAt(DefaultsAt(a, g'), DefaultsAt(a, g) + UnderDefaults(Key(k), extra), p)
  {
    var u := UnderDefaults(Key(k), extra);
    if p != [] && p[0] == Key(k) {
      assert p in u <==> p[1..] in extra;
    } else {
      assert p !in u;
    }
  }

  lemma SameDefaults(a: Account, g: Progress, g': Progress)
    requires a.Valid() && forall j :: DefaultAt(a, g', j) == DefaultAt(a, g, j)
    ensures DefaultsAt(a, g') == DefaultsAt(a, g)
  {
    forall p: Path ensures AgreeAt(DefaultsAt(a, g'), DefaultsAt(a, g), p) {
      SameDefaultAt(a, g, g', p);
    }
    AgreeEverywhere(DefaultsAt(a, g'), DefaultsAt(a, g));
  }

  lemma SameDefaultAt(a: Account, g: Progress, g': Progress, p: Path)
    requires a.Valid()
    requires p != [] && p[0].Key? ==> DefaultAt(a, g', p[0].name) == DefaultAt(a, g, p[0].name)
    ensures AgreeAt(DefaultsAt(a, g'), DefaultsAt(a, g), p)
  {
  }

  /** Field `k` has had its default considered. */
  lemma FilledFields(a: Account, g: Progress, g': Progress, k: string)
    requires a.Valid() && k !in g.done && g' == g.(filled := g.filled + {k})
    ensures FieldsAt(a, g') == if k !in FieldsAt(a, g) && k in a.w then FieldsAt(a, g)[k := a.w[k]] else FieldsAt(a, g)
  {
  }

  lemma FilledErrors(a: Account, g: Progress, g': Progress, k: string)
    requires a.Valid() && g' == g.(filled := g.filled + {k})
    ensures ErrorsAt(a, g') == ErrorsAt(a, g)
  {
    forall e: Report ensures e in ErrorsAt(a, g') <==> e in ErrorsAt(a, g) {
    }
  }

  lemma FilledDefaults(a: Account, g: Progress, g': Progress, k: string)
    requires a.Valid() && k !in g.done && g' == g.(filled := g.filled + {k})
    ensures k !in FieldsAt(a, g) && k in a.w ==>
              DefaultsAt(a, g') == DefaultsAt(a, g) + UnderDefaults(Key(k), imap[[] := a.w[k]])
    ensures k in FieldsAt(a, g) || k !in a.w ==> DefaultsAt(a, g') == DefaultsAt(a, g)
  {
    OthersKept(a, g, g', k);
    if k !in FieldsAt(a, g) && k in a.w {
      assert DefaultAt(a, g', k) == DefaultAt(a, g, k) + imap[[] := a.w[k]];
      DefaultsStep(a, g, g', k, imap[[] := a.w[k]]);
    } else {
      assert DefaultAt(a, g', k) == DefaultAt(a, g, k);
      SameDefaults(a, g, g');
    }
  }

  lemma OthersKept(a: Account, g: Progress, g': Progress, k: string)
    requires a.Valid() && g' == g.(filled := g.filled + {k})
    ensures forall j | j != k :: DefaultAt(a, g', j) == DefaultAt(a, g, j)
  {
  }

  /** Field `k`, if there at all, has been validated. */
  lemma DoneFields(a: Account, g: Progress, g': Progress, k: string)
    requires a.Valid() && k !in g.done && (k in FieldsAt(a, g) || k !in a.w) && g' == g.(done := g.done + {k})
    ensures k in a.w ==> FieldsAt(a, g)[k] == a.w[k]
    ensures FieldsAt(a, g') == if k in a.w then FieldsAt(a, g)[k := a.target[k]] else FieldsAt(a, g)
  {
  }

  lemma DoneErrors(a: Account, g: Progress, g': Progress, k: string)
    requires a.Valid() && k !in g.done && g' == g.(done := g.done + {k})
    ensures ErrorsAt(a, g') == ErrorsAt(a, g) + Under(Key(k), if k in a.w then a.within[k] else iset{})
  {
    ErrorsStep(a, g, g', k, if k in a.w then a.within[k] else iset{});
  }

  lemma DoneDefaults(a: Account, g: Progress, g': Progress, k: string)
    requires a.Valid() && k !in g.done && g' == g.(done := g.done + {k})
    ensures DefaultsAt(a, g') == DefaultsAt(a, g) + UnderDefaults(Key(k), if k in a.w then a.defaults[k] else imap[])
  {
    var extra := if k in a.w then a.defaults[k] else imap[];
    assert forall j | j != k :: DefaultAt(a, g', j) == DefaultAt(a, g, j);
    assert DefaultAt(a, g', k) == DefaultAt(a, g, k) + extra;
    DefaultsStep(a, g, g', k, extra);
  }

  /** An error about field `k` as such has been appended. */
  lemma Refused(a: Account, g: Progress, g': Progress, k: string, code: Code)
    requires a.Valid() && g'.filled == g.filled && g'.done == g.done
    requires code == Required || code == AdditionalProperty
    requires g'.missing == if code == Required then g.missing + {k} else g.missing
    requires g'.refused == if code == AdditionalProperty then g.refused + {k} else g.refused
    ensures FieldsAt(a, g') == FieldsAt(a, g) && DefaultsAt(a, g') == DefaultsAt(a, g)
    ensures ErrorsAt(a, g') == ErrorsAt(a, g) + Under(Key(k), iset{([], code)})
  {
    ErrorsStep(a, g, g', k, iset{([], code)});
    SameDefaults(a, g, g');
  }

  // ---------- The account against the schema ----------

  lemma AccountField(m: map<string, Value>, s: Schema, k: string)
    ensures var a := AccountOf(m, s);
      && (k in a.w <==> k in m || HasDefault(s, k))
      && (k in a.w ==>
            && a.w[k] == (if k in m then m[k] else DefaultOf(s, k))
            && (FieldSchema(s, k).Some? ==>
                  && a.target[k] == Fill(a.w[k], FieldSchema(s, k).value)
                  && a.within[k] == ErrorSet(a.w[k], FieldSchema(s, k).value)
                  && a.defaults[k] == DefaultsOf(a.w[k], FieldSchema(s, k).value))
            && (FieldSchema(s, k).None? ==> a.target[k] == a.w[k] && a.within[k] == iset{} && a.defaults[k] == imap[]))
  {
  }

  ghost predicate Finished(m: map<string, Value>, s: Schema, g: Progress) {
    var w := WithDefaults(m, s);
    && w.Keys <= g.filled + m.Keys
    && w.Keys <= g.done
    && (forall k :: k in g.missing <==> IsRequired(s, k) && k !in w)
    && (forall k :: k in g.refused <==> k in w && Forbidden(s, k))
  }

  lemma AllDone(a: Account, g: Progress)
    requires a.Valid() && a.w.Keys <= g.filled + a.given && a.w.Keys <= g.done
    ensures FieldsAt(a, g) == a.target
    ensures forall k | k in a.w :: DefaultAt(a, g, k) == (if k !in a.given then imap[[] := a.w[k]] else imap[]) + a.defaults[k]
    ensures forall k | k !in a.w :: DefaultAt(a, g, k) == imap[]
  {
    forall k | k in a.w ensures DefaultAt(a, g, k) == (if k !in a.given then imap[[] := a.w[k]] else imap[]) + a.defaults[k] {
      FieldDone(a, g, k);
    }
    forall k | k !in a.w ensures DefaultAt(a, g, k) == imap[] { }
    assert FieldsAt(a, g) == a.target by { FieldsDone(a, g); }
  }

  lemma FieldDone(a: Account, g: Progress, k: string)
    requires a.Valid() && k in a.w && k in g.done && (k in g.filled || k in a.given)
    ensures DefaultAt(a, g, k) == (if k !in a.given then imap[[] := a.w[k]] else imap[]) + a.defaults[k]
  {
  }

  lemma FieldsDone(a: Account, g: Progress)
    requires a.Valid() && a.w.Keys <= g.filled + a.given && a.w.Keys <= g.done
    ensures FieldsAt(a, g) == a.target
  {
  }

  lemma FillIsTarget(m: map<string, Value>, s: Schema)
    requires TypeOk(Obj(m), s)
    ensures Fill(Obj(m), s) == Obj(AccountOf(m, s).target)
  {
  }

  lemma FieldsFinished(m: map<string, Value>, s: Schema, g: Progress)
    requires TypeOk(Obj(m), s) && Finished(m, s, g)
    ensures Obj(FieldsAt(AccountOf(m, s), g)) == Fill(Obj(m), s)
  {
    AllDone(AccountOf(m, s), g);
    FillIsTarget(m, s);
  }

  lemma DefaultFinished(m: map<string, Value>, s: Schema, g: Progress, k: string)
    requires Finished(m, s, g) && k in AccountOf(m, s).w
    ensures DefaultAt(AccountOf(m, s), g, k) == FieldDefaults(WithDefaults(m, s), m.Keys, s, k)
  {
    AllDone(AccountOf(m, s), g);
  }

  /** `DefaultsOf` an object, one path at a time. */
  lemma DefaultPath(m: map<string, Value>, s: Schema, p: Path)
    requires TypeOk(Obj(m), s)
    ensures var w, d := WithDefaults(m, s), DefaultsOf(Obj(m), s);
      && (p in d <==> p != [] && p[0].Key? && p[0].name in w && p[1..] in FieldDefaults(w, m.Keys, s, p[0].name))
      && (p in d ==> d[p] == FieldDefaults(w, m.Keys, s, p[0].name)[p[1..]])
  {
  }

  lemma DefaultPathFinished(m: map<string, Value>, s: Schema, a: Account, g: Progress, p: Path, d: imap<Path, Value>, r: imap<Path, Value>)
    requires TypeOk(Obj(m), s) && Finished(m, s, g) && a == AccountOf(m, s)
    requires d == DefaultsAt(a, g) && r == DefaultsOf(Obj(m), s)
    ensures (p in d <==> p in r) && (p in r ==> d[p] == r[p])
  {
    DefaultPath(m, s, p);
    if p != [] && p[0].Key? {
      var k := p[0].name;
      if k in a.w {
        DefaultFinished(m, s, g, k);
        assert DefaultAt(a, g, k) == FieldDefaults(WithDefaults(m, s), m.Keys, s, k);
      } else {
        AllDone(a, g);
        assert DefaultAt(a, g, k) == imap[];
      }
    }
  }

  lemma DefaultsFinished(m: map<string, Value>, s: Schema, g: Progress)
    requires TypeOk(Obj(m), s) && Finished(m, s, g)
    ensures DefaultsAt(AccountOf(m, s), g) == DefaultsOf(Obj(m), s)
  {
    var d, r := DefaultsAt(AccountOf(m, s), g), DefaultsOf(Obj(m), s);
    forall p: Path ensures AgreeAt(d, r, p) {
      DefaultPathFinished(m, s, AccountOf(m, s), g, p, d, r);
    }
    AgreeEverywhere(d, r);
  }

  lemma ErrorsFinished(m: map<string, Value>, s: Schema, g: Progress)
    requires TypeOk(Obj(m), s) && Finished(m, s, g)
    ensures ErrorsAt(AccountOf(m, s), g) == iset e | e in ErrorSet(Obj(m), s) && e.0 != []
  {
    var a := AccountOf(m, s);
    forall e: Report ensures e in ErrorsAt(a, g) <==> e in ErrorSet(Obj(m), s) && e.0 != [] {
      if e.0 != [] && e.0[0].Key? { ErrorFinished(m, s, g, e); }
    }
  }

  lemma ErrorFinished(m: map<string, Value>, s: Schema, g: Progress, e: Report)
    requires TypeOk(Obj(m), s) && Finished(m, s, g) && e.0 != [] && e.0[0].Key?
    ensures ErrorAt(AccountOf(m, s), g, e.0[0].name, e.0[1..], e.1) <==> e in ErrorSet(Obj(m), s)
  {
    var k := e.0[0].name;
    AccountField(m, s, k);
    assert e.0[1..] == [] <==> |e.0| == 1;
    assert FieldReport(m, s, e) <==>
      e.0[1..] == [] && ((e.1 == Required && k in g.missing) || (e.1 == AdditionalProperty && k in g.refused));
  }

  // ---------- Errors located at the value itself ----------

  ghost function LocalErrors(v: Value, s: Schema, codes: set<Code>): iset<Report> {
    iset e: Report | e.0 == [] && e.1 in codes && LocalError(v, s, e.1)
  }

  /** `_error` under a condition, accounted for as one more code checked. */
  method Flag(findings: Findings, path: Path, code: Code, failed: bool,
              ghost before: seq<ConstraintError>, ghost v: Value, ghost s: Schema, ghost codes: set<Code>)
    requires Added(before, findings.errors, path, LocalErrors(v, s, codes))
    requires failed == LocalError(v, s, code)
    modifies findings`errors
    ensures findings.errors == old(findings.errors) + if failed then [ConstraintError(path, code)] else []
    ensures Added(before, findings.errors, path, LocalErrors(v, s, codes + {code}))
  {
    if failed {
      findings.errors := findings.errors + [ConstraintError(path, code)];
      assert path + [] == path;
      AddedOne(old(findings.errors), path, [], code);
      AddedThen(before, old(findings.errors), findings.errors, path, LocalErrors(v, s, codes), iset{([], code)});
      assert LocalErrors(v, s, codes + {code}) == LocalErrors(v, s, codes) + iset{([], code)};
    } else {
      assert findings.errors == old(findings.errors);
      assert LocalErrors(v, s, codes + {code}) == LocalErrors(v, s, codes);
    }
  }

  method CheckString(value: Value, schema: Schema, path: Path, findings: Findings,
                     ghost before: seq<ConstraintError>, ghost codes: set<Code>)
    requires Added(before, findings.errors, path, LocalErrors(value, schema, codes))
    modifies findings`errors
    ensures Added(before, findings.errors, path, LocalErrors(value, schema, codes + {MinLength} + {MaxLength}))
  {
    var minimum, maximum := IntKeyword(schema, "minLength"), IntKeyword(schema, "maxLength");
    Flag(findings, path, MinLength, value.Str? && minimum.Some? && |value.s| < minimum.value, before, value, schema, codes);
    Flag(findings, path, MaxLength, value.Str? && maximum.Some? && |value.s| > maximum.value, before, value, schema, codes + {MinLength});
  }

  method CheckNumber(value: Value, schema: Schema, path: Path, findings: Findings,
                     ghost before: seq<ConstraintError>, ghost codes: set<Code>)
    requires Added(before, findings.errors, path, LocalErrors(value, schema, codes))
    modifies findings`errors
    ensures Added(before, findings.errors, path, LocalErrors(value, schema, codes + {Minimum} + {Maximum}))
  {
    var minimum, maximum := NumberKeyword(schema, "minimum"), NumberKeyword(schema, "maximum");
    Flag(findings, path, Minimum, IsNumber(value) && minimum.Some? && Numeric(value).value < minimum.value, before, value, schema, codes);
    Flag(findings, path, Maximum, IsNumber(value) && maximum.Some? && Numeric(value).value > maximum.value, before, value, schema, codes + {Minimum});
  }

  method CheckList(value: Value, schema: Schema, path: Path, findings: Findings,
                   ghost before: seq<ConstraintError>, ghost codes: set<Code>)
    requires Added(before, findings.errors, path, LocalErrors(value, schema, codes))
    modifies findings`errors
    ensures Added(before, findings.errors, path, LocalErrors(value, schema, codes + {MinItems} + {MaxItems}))
  {
    var minimum, maximum := IntKeyword(schema, "minItems"), IntKeyword(schema, "maxItems");
    Flag(findings, path, MinItems, value.Arr? && minimum.Some? && |value.items| < minimum.value, before, value, schema, codes);
    Flag(findings, path, MaxItems, value.Arr? && maximum.Some? && |value.items| > maximum.value, before, value, schema, codes + {MinItems});
  }

  const ALL_LOCAL: set<Code> := {} + {EnumMismatch} + {MinLength} + {MaxLength} + {Minimum} + {Maximum} + {MinItems} + {MaxItems}

  method CheckKeywords(value: Value, schema: Schema, path: Path, findings: Findings)
    modifies findings`errors
    ensures Added(old(findings.errors), findings.errors, path, LocalErrors(value, schema, ALL_LOCAL))
  {
    ghost var before := findings.errors;
    var enum := Get(schema, "enum");
    Flag(findings, path, EnumMismatch, enum.Some? && enum.value.Arr? && !PyIn(value, enum.value.items), before, value, schema, {});
    CheckString(value, schema, path, findings, before, {} + {EnumMismatch});
    CheckNumber(value, schema, path, findings, before, {} + {EnumMismatch} + {MinLength} + {MaxLength});
    CheckList(value, schema, path, findings, before, {} + {EnumMismatch} + {MinLength} + {MaxLength} + {Minimum} + {Maximum});
  }

  // ---------- The validator ----------

  /** The errors of a typed value are its own and those below it. */
  lemma SplitErrors(v: Value, s: Schema)
    requires !NullAccepted(v, s) && TypeOk(v, s)
    ensures ErrorSet(v, s) == LocalErrors(v, s, ALL_LOCAL) + (iset e | e in ErrorSet(v, s) && e.0 != [])
  {
    forall e | e in ErrorSet(v, s) && e.0 == [] ensures e in LocalErrors(v, s, ALL_LOCAL) {
    }
  }

  method ValidateValue(value: Value, schema: Schema, path: Path, findings: Findings) returns (normalized: Value)
    modifies findings
    ensures normalized == Fill(value, schema)
    ensures Added(old(findings.errors), findings.errors, path, ErrorSet(value, schema))
    ensures AddedDefaults(old(findings.defaults), findings.defaults, path, DefaultsOf(value, schema))
    decreases schema, 2
  {
    if NullAccepted(value, schema) { return Null; }
    if !TypeOk(value, schema) {
      findings.errors := findings.errors + [ConstraintError(path, InvalidType)];
      assert path + [] == path;
      AddedOne(old(findings.errors), path, [], InvalidType);
      return value;
    }
    CheckKeywords(value, schema, path, findings);
    ghost var middle := findings.errors;
    if value.Arr? && Items(schema).Some? {
      var items := ValidateItems(value.items, Items(schema).value, path, findings);
      normalized := Arr(items);
      ItemsAccount(value, schema);
    } else if value.Obj? {
      var fields := ValidateObject(value.fields, schema, path, findings);
      normalized := Obj(fields);
    } else {
      normalized := value;
    }
    AddedThen(old(findings.errors), middle, findings.errors, path,
      LocalErrors(value, schema, ALL_LOCAL), iset e | e in ErrorSet(value, schema) && e.0 != []);
    SplitErrors(value, schema);
  }

  ghost function ItemErrors(within: seq<iset<Report>>): iset<Report> {
    iset e: Report | e.0 != [] && e.0[0].Index? && e.0[0].i < |within| && (e.0[1..], e.1) in within[e.0[0].i]
  }

  ghost function ItemDefaults(within: seq<imap<Path, Value>>): imap<Path, Value> {
    imap p: Path | p != [] && p[0].Index? && p[0].i < |within| && p[1..] in within[p[0].i] :: within[p[0].i][p[1..]]
  }

  ghost function ErrorsOfItems(items: seq<Value>, s: Schema): seq<iset<Report>> {
    seq(|items|, i requires 0 <= i < |items| => ErrorSet(items[i], s))
  }

  ghost function DefaultsOfItems(items: seq<Value>, s: Schema): seq<imap<Path, Value>> {
    seq(|items|, i requires 0 <= i < |items| => DefaultsOf(items[i], s))
  }

  lemma ItemsAccount(value: Value, s: Schema)
    requires value.Arr? && Items(s).Some? && TypeOk(value, s)
    ensures ItemErrors(ErrorsOfItems(value.items, Items(s).value)) == iset e | e in ErrorSet(value, s) && e.0 != []
    ensures ItemDefaults(DefaultsOfItems(value.items, Items(s).value)) == DefaultsOf(value, s)
  {
  }

  function FillItems(items: seq<Value>, s: Schema): seq<Value> {
    seq(|items|, i requires 0 <= i < |items| => Fill(items[i], s))
  }

  lemma ItemStep(items: seq<Value>, s: Schema, n: nat)
    requires n < |items|
    ensures FillItems(items[..n + 1], s) == FillItems(items[..n], s) + [Fill(items[n], s)]
    ensures ErrorsOfItems(items[..n + 1], s) == ErrorsOfItems(items[..n], s) + [ErrorSet(items[n], s)]
    ensures DefaultsOfItems(items[..n + 1], s) == DefaultsOfItems(items[..n], s) + [DefaultsOf(items[n], s)]
  {
  }

  lemma ItemErrorsStep(errors: seq<iset<Report>>, e: iset<Report>)
    ensures ItemErrors(errors + [e]) == ItemErrors(errors) + Under(Index(|errors|), e)
  {
    forall r: Report ensures r in ItemErrors(errors + [e]) <==> r in ItemErrors(errors) + Under(Index(|errors|), e) {
      if r.0 != [] && r.0[0] == Index(|errors|) {
        assert r in Under(Index(|errors|), e) <==> (r.0[1..], r.1) in e;
      }
    }
  }

  lemma ItemDefaultsStep(defaults: seq<imap<Path, Value>>, d: imap<Path, Value>)
    ensures ItemDefaults(defaults + [d]) == ItemDefaults(defaults) + UnderDefaults(Index(|defaults|), d)
  {
    var l, r := ItemDefaults(defaults + [d]), ItemDefaults(defaults) + UnderDefaults(Index(|defaults|), d);
    forall p: Path ensures AgreeAt(l, r, p) { ItemDefaultsStepAt(defaults, d, p); }
    AgreeEverywhere(l, r);
  }

  lemma ItemDefaultsStepAt(defaults: seq<imap<Path, Value>>, d: imap<Path, Value>, p: Path)
    ensures AgreeAt(ItemDefaults(defaults + [d]), ItemDefaults(defaults) + UnderDefaults(Index(|defaults|), d), p)
  {
    var u := UnderDefaults(Index(|defaults|), d);
    if p != [] && p[0] == Index(|defaults|) {
      assert p in u <==> p[1..] in d;
    } else {
      assert p !in u;
    }
  }

  /** The list comprehension over a value's items. */
  method ValidateItems(items: seq<Value>, schema: Schema, path: Path, findings: Findings) returns (normalized: seq<Value>)
    modifies findings
    ensures normalized == FillItems(items, schema)
    ensures Added(old(findings.errors), findings.errors, path, ItemErrors(ErrorsOfItems(items, schema)))
    ensures AddedDefaults(old(findings.defaults), findings.defaults, path, ItemDefaults(DefaultsOfItems(items, schema)))
    decreases schema, 3
  {
    normalized := [];
    for index := 0 to |items|
      invariant normalized == FillItems(items[..index], schema)
      invariant Added(old(findings.errors), findings.errors, path, ItemErrors(ErrorsOfItems(items[..index], schema)))
      invariant AddedDefaults(old(findings.defaults), findings.defaults, path, ItemDefaults(DefaultsOfItems(items[..index], schema)))
    {
      ghost var errors, defaults := findings.errors, findings.defaults;
      var item := ValidateValue(items[index], schema, path + [Index(index)], findings);
      normalized := normalized + [item];
      AddedBelow(old(findings.errors), errors, findings.errors, path,
        ItemErrors(ErrorsOfItems(items[..index], schema)), Index(index), ErrorSet(items[index], schema));
      AddedDefaultsBelow(old(findings.defaults), defaults, findings.defaults, path,
        ItemDefaults(DefaultsOfItems(items[..index], schema)), Index(index), DefaultsOf(items[index], schema));
      ItemStep(items, schema, index);
      ItemErrorsStep(ErrorsOfItems(items[..index], schema), ErrorSet(items[index], schema));
      ItemDefaultsStep(DefaultsOfItems(items[..index], schema), DefaultsOf(items[index], schema));
    }
    assert items[..|items|] == items;
  }

  // ---------- Objects ----------

  /** Everything the loops have produced so far is what progress `g` accounts for. */
  ghost predicate At(a: Account, g: Progress, path: Path, normalized: map<string, Value>,
                     e0: seq<ConstraintError>, e1: seq<ConstraintError>, d0: map<Path, Value>, d1: map<Path, Value>) {
    && a.Valid()
    && normalized == FieldsAt(a, g)
    && Added(e0, e1, path, ErrorsAt(a, g))
    && AddedDefaults(d0, d1, path, DefaultsAt(a, g))
  }

  lemma EmptyAccount(a: Account, n: map<string, Value>)
    requires a.Valid() && n.Keys == a.given && forall k | k in n :: a.w[k] == n[k]
    ensures var g := Progress({}, {}, {}, {});
            FieldsAt(a, g) == n && ErrorsAt(a, g) == iset{} && DefaultsAt(a, g) == imap[]
  {
    var g := Progress({}, {}, {}, {});
    forall k ensures DefaultAt(a, g, k) == imap[] { }
  }

  lemma AtStart(m: map<string, Value>, s: Schema, path: Path, e: seq<ConstraintError>, d: map<Path, Value>)
    ensures At(AccountOf(m, s), Progress({}, {}, {}, {}), path, m, e, e, d, d)
  {
    EmptyAccount(AccountOf(m, s), m);
  }

  lemma AtFilled(a: Account, g: Progress, g': Progress, path: Path, n: map<string, Value>,
                 e0: seq<ConstraintError>, e1: seq<ConstraintError>, d0: map<Path, Value>, d1: map<Path, Value>, k: string)
    requires At(a, g, path, n, e0, e1, d0, d1) && k !in g.done && g' == g.(filled := g.filled + {k})
    ensures k !in n && k in a.w ==> At(a, g', path, n[k := a.w[k]], e0, e1, d0, d1[path + [Key(k)] := a.w[k]])
    ensures k in n || k !in a.w ==> At(a, g', path, n, e0, e1, d0, d1)
  {
    FilledFields(a, g, g', k);
    FilledErrors(a, g, g', k);
    FilledDefaults(a, g, g', k);
    if k !in n && k in a.w {
      AddedDefaultHere(d1, path, k, a.w[k]);
      AddedDefaultsThen(d0, d1, d1[path + [Key(k)] := a.w[k]], path, DefaultsAt(a, g), UnderDefaults(Key(k), imap[[] := a.w[k]]));
    }
  }

  lemma AtDone(a: Account, g: Progress, g': Progress, path: Path, n: map<string, Value>,
               e0: seq<ConstraintError>, e1: seq<ConstraintError>, e2: seq<ConstraintError>,
               d0: map<Path, Value>, d1: map<Path, Value>, d2: map<Path, Value>, k: string)
    requires At(a, g, path, n, e0, e1, d0, d1) && k in n && k !in g.done && g' == g.(done := g.done + {k})
    requires Added(e1, e2, path + [Key(k)], a.within[k]) && AddedDefaults(d1, d2, path + [Key(k)], a.defaults[k])
    ensures At(a, g', path, n[k := a.target[k]], e0, e2, d0, d2)
  {
    DoneFields(a, g, g', k);
    DoneErrors(a, g, g', k);
    DoneDefaults(a, g, g', k);
    AddedBelow(e0, e1, e2, path, ErrorsAt(a, g), Key(k), a.within[k]);
    AddedDefaultsBelow(d0, d1, d2, path, DefaultsAt(a, g), Key(k), a.defaults[k]);
  }

  lemma NothingUnder(step: Step, r: iset<Report>, d: imap<Path, Value>)
    ensures r + Under(step, iset{}) == r && d + UnderDefaults(step, imap[]) == d
  {
  }

  /** A field that is absent, or that no schema applies to, is done without any work. */
  lemma AtIdle(a: Account, g: Progress, g': Progress, path: Path, n: map<string, Value>,
               e0: seq<ConstraintError>, e1: seq<ConstraintError>, d0: map<Path, Value>, d1: map<Path, Value>, k: string)
    requires At(a, g, path, n, e0, e1, d0, d1) && k !in g.done && g' == g.(done := g.done + {k})
    requires k !in a.w || (k in n && a.target[k] == a.w[k] && a.within[k] == iset{} && a.defaults[k] == imap[])
    ensures At(a, g', path, n, e0, e1, d0, d1)
  {
    DoneFields(a, g, g', k);
    assert k in a.w ==> n[k := a.target[k]] == n;
    NothingUnder(Key(k), ErrorsAt(a, g), DefaultsAt(a, g));
    assert ErrorsAt(a, g') == ErrorsAt(a, g) by { DoneErrors(a, g, g', k); }
    assert DefaultsAt(a, g') == DefaultsAt(a, g) by { DoneDefaults(a, g, g', k); }
  }

  lemma AtRefused(a: Account, g: Progress, g': Progress, path: Path, n: map<string, Value>,
                  e0: seq<ConstraintError>, e1: seq<ConstraintError>, d0: map<Path, Value>, d1: map<Path, Value>, k: string, code: Code)
    requires At(a, g, path, n, e0, e1, d0, d1) && (code == Required || code == AdditionalProperty)
    requires g' == if code == Required then g.(missing := g.missing + {k}) else g.(refused := g.refused + {k})
    ensures At(a, g', path, n, e0, e1 + [ConstraintError(path + [Key(k)], code)], d0, d1)
  {
    Refused(a, g, g', k, code);
    AddedErrorHere(e1, path, k, code);
    AddedThen(e0, e1, e1 + [ConstraintError(path + [Key(k)], code)], path, ErrorsAt(a, g), Under(Key(k), iset{([], code)}));
  }

  method ValidateObject(value: map<string, Value>, schema: Schema, path: Path, findings: Findings) returns (normalized: map<string, Value>)
    requires TypeOk(Obj(value), schema)
    modifies findings
    ensures Obj(normalized) == Fill(Obj(value), schema)
    ensures Added(old(findings.errors), findings.errors, path, iset e | e in ErrorSet(Obj(value), schema) && e.0 != [])
    ensures AddedDefaults(old(findings.defaults), findings.defaults, path, DefaultsOf(Obj(value), schema))
    decreases schema, 1
  {
    ghost var a := AccountOf(value, schema);
    ghost var g: Progress;
    normalized, g := FillRequired(value, schema, path, findings);
    DeclaredFields(value, schema);
    normalized, g := ValidateProperties(normalized, schema, path, findings, old(findings.errors), old(findings.defaults), a, g);
    UndeclaredFields(value, schema);
    AllFieldsThere(value, schema, a, g);
    AllFinished(value, schema, g);
    normalized, g := ValidateAdditional(normalized, schema, path, findings, old(findings.errors), old(findings.defaults), a, g);
    FieldsFinished(value, schema, g);
    ErrorsFinished(value, schema, g);
    DefaultsFinished(value, schema, g);
  }

  /** First loop: defaults for the required names that are missing, errors for the rest. */
  method FillRequired(value: map<string, Value>, schema: Schema, path: Path, findings: Findings)
    returns (normalized: map<string, Value>, ghost g: Progress)
    modifies findings
    ensures At(AccountOf(value, schema), g, path, normalized, old(findings.errors), findings.errors, old(findings.defaults), findings.defaults)
    ensures g.done == {} && g.refused == {}
    ensures forall k :: k in g.missing <==> IsRequired(schema, k) && k !in WithDefaults(value, schema)
  {
    var properties, required := Properties(schema), RequiredList(schema);
    ghost var a := AccountOf(value, schema);
    normalized, g := value, Progress({}, {}, {}, {});
    AtStart(value, schema, path, findings.errors, findings.defaults);
    for i := 0 to |required|
      invariant At(a, g, path, normalized, old(findings.errors), findings.errors, old(findings.defaults), findings.defaults)
      invariant g.done == {} && g.refused == {}
      invariant forall k :: k in g.missing <==> Str(k) in required[..i] && k !in a.w
    {
      assert required[..i + 1] == required[..i] + [required[i]];
      if required[i].Str? && required[i].s !in normalized {
        var name := required[i].s;
        AccountField(value, schema, name);
        if name in properties && properties[name].Obj? && "default" in properties[name].fields {
          ghost var g' := g.(filled := g.filled + {name});
          AtFilled(a, g, g', path, normalized, old(findings.errors), findings.errors, old(findings.defaults), findings.defaults, name);
          normalized := normalized[name := properties[name].fields["default"]];
          findings.defaults := findings.defaults[path + [Key(name)] := properties[name].fields["default"]];
          g := g';
        } else {
          ghost var g' := g.(missing := g.missing + {name});
          AtRefused(a, g, g', path, normalized, old(findings.errors), findings.errors, old(findings.defaults), findings.defaults, name, Required);
          findings.errors := findings.errors + [ConstraintError(path + [Key(name)], Required)];
          g := g';
        }
      }
    }
  }

  /** What the account says of the declared properties. */
  ghost predicate DeclaredAccount(a: Account, s: Schema)
    requires a.Valid()
  {
    forall k | k in Properties(s) ::
      && (k in a.w <==> k in a.given || HasDefault(s, k))
      && (k in a.w && k !in a.given ==> a.w[k] == DefaultOf(s, k))
      && (k in a.w ==>
            if Properties(s)[k].Obj? then
              var c: Schema := Properties(s)[k];
              a.target[k] == Fill(a.w[k], c) && a.within[k] == ErrorSet(a.w[k], c) && a.defaults[k] == DefaultsOf(a.w[k], c)
            else a.target[k] == a.w[k] && a.within[k] == iset{} && a.defaults[k] == imap[])
  }

  lemma DeclaredFields(m: map<string, Value>, s: Schema)
    ensures DeclaredAccount(AccountOf(m, s), s)
  {
    forall k | k in Properties(s) ensures FieldSchema(s, k) == if Properties(s)[k].Obj? then Some(Properties(s)[k]) else None { }
    forall k | k in Properties(s) { AccountField(m, s, k); }
  }

  /** Second loop: each declared property is filled in if it can be, then validated if it is there.
      The order is arbitrary here; the result does not depend on it. */
  method ValidateProperties(fields: map<string, Value>, schema: Schema, path: Path, findings: Findings,
                            ghost e0: seq<ConstraintError>, ghost d0: map<Path, Value>, ghost a: Account, ghost g0: Progress)
    returns (normalized: map<string, Value>, ghost g: Progress)
    requires a.Valid() && DeclaredAccount(a, schema) && g0.done == {}
    requires At(a, g0, path, fields, e0, findings.errors, d0, findings.defaults)
    modifies findings
    ensures At(a, g, path, normalized, e0, findings.errors, d0, findings.defaults)
    ensures g.missing == g0.missing && g.refused == g0.refused
    ensures Properties(schema).Keys <= g.filled && g.done == Properties(schema).Keys
    decreases schema, 0, 1
  {
    var properties := Properties(schema);
    normalized, g := fields, g0;
    var todo := properties.Keys;
    while todo != {}
      invariant todo <= properties.Keys
      invariant At(a, g, path, normalized, e0, findings.errors, d0, findings.defaults)
      invariant g.missing == g0.missing && g.refused == g0.refused
      invariant properties.Keys - todo <= g.filled && g.done == properties.Keys - todo
    {
      var name :| name in todo;
      todo := todo - {name};
      normalized := ValidateProperty(normalized, schema, name, path, findings, e0, d0, a, g);
      g := g.(filled := g.filled + {name}, done := g.done + {name});
    }
  }

  method ValidateProperty(fields: map<string, Value>, schema: Schema, name: string, path: Path, findings: Findings,
                          ghost e0: seq<ConstraintError>, ghost d0: map<Path, Value>, ghost a: Account, ghost g: Progress)
    returns (normalized: map<string, Value>)
    requires a.Valid() && DeclaredAccount(a, schema) && name in Properties(schema) && name !in g.done
    requires At(a, g, path, fields, e0, findings.errors, d0, findings.defaults)
    modifies findings
    ensures At(a, g.(filled := g.filled + {name}, done := g.done + {name}), path, normalized, e0, findings.errors, d0, findings.defaults)
    decreases schema, 0, 0
  {
    normalized := fields;
    ghost var g1 := g.(filled := g.filled + {name});
    ghost var g2 := g1.(done := g1.done + {name});
    AtFilled(a, g, g1, path, normalized, e0, findings.errors, d0, findings.defaults, name);
    var property := Properties(schema)[name];
    if !property.Obj? {
      AtIdle(a, g1, g2, path, normalized, e0, findings.errors, d0, findings.defaults, name);
      return;
    }
    if name !in normalized && "default" in property.fields {
      normalized := normalized[name := property.fields["default"]];
      findings.defaults := findings.defaults[path + [Key(name)] := property.fields["default"]];
    }
    if name in normalized {
      normalized := ValidateField(normalized, name, property, path, findings, e0, d0, a, g1);
    } else {
      AtIdle(a, g1, g2, path, normalized, e0, findings.errors, d0, findings.defaults, name);
    }
  }

  /** `normalized[name] = self._validate_value(normalized[name], ...)`. */
  method ValidateField(fields: map<string, Value>, name: string, schema: Schema, path: Path, findings: Findings,
                       ghost e0: seq<ConstraintError>, ghost d0: map<Path, Value>, ghost a: Account, ghost g: Progress)
    returns (normalized: map<string, Value>)
    requires At(a, g, path, fields, e0, findings.errors, d0, findings.defaults) && name in fields && name !in g.done
    requires a.target[name] == Fill(a.w[name], schema)
    requires a.within[name] == ErrorSet(a.w[name], schema) && a.defaults[name] == DefaultsOf(a.w[name], schema)
    modifies findings
    ensures normalized == fields[name := a.target[name]]
    ensures At(a, g.(done := g.done + {name}), path, normalized, e0, findings.errors, d0, findings.defaults)
    decreases schema, 4
  {
    ghost var g1 := g.(done := g.done + {name});
    DoneFields(a, g, g1, name);
    ghost var e1, d1 := findings.errors, findings.defaults;
    var field := ValidateValue(fields[name], schema, path + [Key(name)], findings);
    normalized := fields[name := field];
    AtDone(a, g, g1, path, fields, e0, e1, findings.errors, d0, d1, findings.defaults, name);
  }

  /** Progress after a field that no property declares. */
  function Undeclared(g: Progress, s: Schema, name: string): Progress {
    var g1 := g.(done := g.done + {name});
    if Additional(s) == Bool(false) then g1.(refused := g1.refused + {name}) else g1
  }

  /** Progress once the names in `seen` have been visited, from `g` on. */
  function Visited(g: Progress, s: Schema, seen: set<string>): Progress {
    Progress(g.filled, g.done + seen, g.missing, if Additional(s) == Bool(false) then seen - Properties(s).Keys else {})
  }

  lemma VisitOne(g: Progress, s: Schema, seen: set<string>, name: string)
    requires g.refused == {} && g.done == Properties(s).Keys
    ensures Visited(g, s, {}) == g
    ensures Visited(g, s, seen + {name}) ==
            if name in Properties(s) then Visited(g, s, seen) else Undeclared(Visited(g, s, seen), s, name)
  {
    assert g.done + {} == g.done;
    if name in Properties(s) {
      assert g.done + (seen + {name}) == g.done + seen;
      assert seen + {name} - Properties(s).Keys == seen - Properties(s).Keys;
    } else {
      assert g.done + (seen + {name}) == g.done + seen + {name};
      assert seen + {name} - Properties(s).Keys == seen - Properties(s).Keys + {name};
    }
  }

  lemma AllFinished(m: map<string, Value>, s: Schema, g: Progress)
    requires g.refused == {} && g.done == Properties(s).Keys && Properties(s).Keys <= g.filled
    requires forall k :: k in g.missing <==> IsRequired(s, k) && k !in WithDefaults(m, s)
    ensures Finished(m, s, Visited(g, s, WithDefaults(m, s).Keys))
  {
  }

  lemma AllFieldsThere(m: map<string, Value>, s: Schema, a: Account, g: Progress)
    requires a == AccountOf(m, s) && Properties(s).Keys <= g.filled
    ensures FieldsAt(a, g).Keys == WithDefaults(m, s).Keys
  {
  }

  /** What the account says of the fields that no property declares. */
  ghost predicate UndeclaredAccount(a: Account, s: Schema)
    requires a.Valid()
  {
    forall k | k in a.w && k !in Properties(s) ::
      if Additional(s).Obj? then
        a.target[k] == Fill(a.w[k], Additional(s)) && a.within[k] == ErrorSet(a.w[k], Additional(s))
        && a.defaults[k] == DefaultsOf(a.w[k], Additional(s))
      else a.target[k] == a.w[k] && a.within[k] == iset{} && a.defaults[k] == imap[]
  }

  lemma UndeclaredFields(m: map<string, Value>, s: Schema)
    ensures UndeclaredAccount(AccountOf(m, s), s)
  {
  }

  /** Third loop: the fields no property declares, under `additionalProperties`. */
  method ValidateAdditional(fields: map<string, Value>, schema: Schema, path: Path, findings: Findings,
                            ghost e0: seq<ConstraintError>, ghost d0: map<Path, Value>, ghost a: Account, ghost g0: Progress)
    returns (normalized: map<string, Value>, ghost g: Progress)
    requires a.Valid() && UndeclaredAccount(a, schema) && g0.refused == {}
    requires g0.done == Properties(schema).Keys
    requires At(a, g0, path, fields, e0, findings.errors, d0, findings.defaults)
    modifies findings
    ensures At(a, g, path, normalized, e0, findings.errors, d0, findings.defaults)
    ensures g == Visited(g0, schema, fields.Keys)
    decreases schema, 0, 2
  {
    normalized := fields;
    var todo := fields.Keys;
    ghost var seen := {};
    VisitOne(g0, schema, {}, "");
    while todo != {}
      invariant todo !! seen && todo + seen == fields.Keys && normalized.Keys == fields.Keys
      invariant At(a, Visited(g0, schema, seen), path, normalized, e0, findings.errors, d0, findings.defaults)
    {
      var name :| name in todo;
      normalized := ValidateRemaining(normalized, schema, name, path, findings, e0, d0, a, g0, seen);
      todo, seen := todo - {name}, seen + {name};
    }
    assert seen == fields.Keys;
    g := Visited(g0, schema, seen);
  }

  /** One name of the third loop; declared properties are skipped. */
  method ValidateRemaining(fields: map<string, Value>, schema: Schema, name: string, path: Path, findings: Findings,
                           ghost e0: seq<ConstraintError>, ghost d0: map<Path, Value>, ghost a: Account, ghost g0: Progress, ghost seen: set<string>)
    returns (normalized: map<string, Value>)
    requires a.Valid() && UndeclaredAccount(a, schema) && name in fields && name !in seen
    requires g0.refused == {} && g0.done == Properties(schema).Keys
    requires At(a, Visited(g0, schema, seen), path, fields, e0, findings.errors, d0, findings.defaults)
    modifies findings
    ensures normalized.Keys == fields.Keys
    ensures At(a, Visited(g0, schema, seen + {name}), path, normalized, e0, findings.errors, d0, findings.defaults)
    decreases schema, 0, 1
  {
    VisitOne(g0, schema, seen, name);
    if name in Properties(schema) {
      normalized := fields;
    } else {
      normalized := ValidateUndeclared(fields, schema, name, path, findings, e0, d0, a, Visited(g0, schema, seen));
    }
  }

  method ValidateUndeclared(fields: map<string, Value>, schema: Schema, name: string, path: Path, findings: Findings,
                            ghost e0: seq<ConstraintError>, ghost d0: map<Path, Value>, ghost a: Account, ghost g: Progress)
    returns (normalized: map<string, Value>)
    requires a.Valid() && UndeclaredAccount(a, schema) && name !in Properties(schema) && name !in g.done && name in fields
    requires At(a, g, path, fields, e0, findings.errors, d0, findings.defaults)
    modifies findings
    ensures normalized.Keys == fields.Keys
    ensures At(a, Undeclared(g, schema, name), path, normalized, e0, findings.errors, d0, findings.defaults)
    decreases schema, 0, 0
  {
    var additional := Additional(schema);
    normalized := fields;
    ghost var g1 := g.(done := g.done + {name});
    if additional.Obj? {
      normalized := ValidateField(fields, name, additional, path, findings, e0, d0, a, g);
    } else {
      AtIdle(a, g, g1, path, normalized, e0, findings.errors, d0, findings.defaults, name);
      if additional == Bool(false) {
        ghost var g2 := g1.(refused := g1.refused + {name});
        AtRefused(a, g1, g2, path, normalized, e0, findings.errors, d0, findings.defaults, name, AdditionalProperty);
        findings.errors := findings.errors + [ConstraintError(path + [Key(name)], AdditionalProperty)];
      }
    }
  }

  // ---------- Entry point ----------

  const KEYWORDS: set<string> :=
    {"type", "properties", "required", "additionalProperties", "enum", "items", "oneOf", "anyOf", "nullable"}

  /** `LegacyConstraintSchemaAdapter.adapt`: a `{name: type}` dict becomes an object schema. */
  function Adapt(s: Schema): (Schema, seq<string>) {
    if s.fields.Keys * KEYWORDS != {} then (s, [])
    else if s.fields == map[] then (Obj(map["type" := Str("object"), "additionalProperties" := Bool(true)]), [])
    else (Obj(map["type" := Str("object"),
                  "properties" := Obj(map k | k in s.fields && s.fields[k].Str? :: Obj(map["type" := s.fields[k]])),
                  "additionalProperties" := Bool(false)]),
          ["legacy_constraint_schema_deprecated"])
  }

  /** `validate`: valid exactly when nothing is wrong; the normalised dict, the reported errors
      and the dict of applied defaults are each what the schema determines. */
  method Validate(constraints: map<string, Value>, schema: Schema) returns (result: ConstraintValidationResult)
    ensures result.valid <==> Clean(Obj(constraints), Adapt(schema).0)
    ensures result.valid <==> result.errors == []
    ensures Obj(result.normalizedConstraints) == Fill(Obj(constraints), Adapt(schema).0)
    ensures forall r :: r in result.errors <==>
              exists e | e in ErrorSet(Obj(constraints), Adapt(schema).0) :: r == ReportedError(Located(e.0), e.1)
    ensures Records(result.appliedDefaults, DefaultsOf(Obj(constraints), Adapt(schema).0))
    ensures result.warnings == Adapt(schema).1
  {
    var (normalizedSchema, warnings) := Adapt(schema);
    var findings := new Findings();
    var normalized := ValidateValue(Obj(constraints), normalizedSchema, [], findings);
    var values := if normalized.Obj? then normalized.fields else constraints;
    var errors := SpellErrors(findings.errors, ErrorSet(Obj(constraints), normalizedSchema));
    var defaults := SpellDefaults(findings.defaults, DefaultsOf(Obj(constraints), normalizedSchema));
    result := ConstraintValidationResult(errors == [], values, errors, warnings, defaults);
  }

  method SpellErrors(errors: seq<ConstraintError>, ghost r: iset<Report>) returns (reported: seq<ReportedError>)
    requires Added([], errors, [], r)
    ensures reported == [] <==> r == iset{}
    ensures forall x :: x in reported <==> exists e | e in r :: x == ReportedError(Located(e.0), e.1)
  {
    TopErrors(errors, r);
    reported := seq(|errors|, i requires 0 <= i < |errors| => ReportedError(Located(errors[i].path), errors[i].code));
    forall x | x in reported ensures exists e | e in r :: x == ReportedError(Located(e.0), e.1) {
      var i :| 0 <= i < |errors| && x == ReportedError(Located(errors[i].path), errors[i].code);
      assert ConstraintError(errors[i].path, errors[i].code) == errors[i];
      assert (errors[i].path, errors[i].code) in r;
    }
    forall e | e in r ensures ReportedError(Located(e.0), e.1) in reported {
      assert (e.0, e.1) == e && ConstraintError(e.0, e.1) in errors;
      var i :| 0 <= i < |errors| && errors[i] == ConstraintError(e.0, e.1);
      assert reported[i] == ReportedError(Located(e.0), e.1);
    }
  }

  /** The dict under spelled paths. Two defaults spelled alike share an entry; the order in which
      they are written is arbitrary here. */
  method SpellDefaults(defaults: map<Path, Value>, ghost d: imap<Path, Value>) returns (spelled: map<string, Value>)
    requires AddedDefaults(map[], defaults, [], d)
    ensures Records(spelled, d)
  {
    TopDefaults(defaults, d);
    spelled := map[];
    var todo := defaults.Keys;
    while todo != {}
      invariant todo <= defaults.Keys
      invariant forall p | p in defaults && p !in todo :: Spelled(p) in spelled
      invariant forall k | k in spelled :: exists p | p in defaults :: Spelled(p) == k && defaults[p] == spelled[k]
    {
      var path :| path in todo;
      todo := todo - {path};
      spelled := spelled[Spelled(path) := defaults[path]];
    }
    assert forall p | p in d :: p in defaults && p !in todo;
  }

  lemma TopErrors(errors: seq<ConstraintError>, r: iset<Report>)
    requires Added([], errors, [], r)
    ensures errors == [] <==> r == iset{}
    ensures forall path, code :: ConstraintError(path, code) in errors <==> (path, code) in r
  {
    assert errors[0..] == errors;
    forall path: Path, code ensures ConstraintError(path, code) in errors <==> (path, code) in r {
      assert ConstraintError(path, code).path[0..] == path;
    }
    if errors != [] { assert ConstraintError(errors[0].path, errors[0].code) == errors[0]; }
    if r != iset{} {
      var e :| e in r;
      assert (e.0, e.1) == e && ConstraintError(e.0, e.1) in errors;
    }
  }

  lemma TopDefaults(defaults: map<Path, Value>, d: imap<Path, Value>)
    requires AddedDefaults(map[], defaults, [], d)
    ensures forall path :: path in defaults <==> path in d
    ensures forall path | path in defaults :: defaults[path] == d[path]
  {
    forall path: Path ensures path[0..] == path { }
  }
}
