/**
 Laws of constraint validation, over every value and every schema:
 agreement with declarative conformance, idempotence, and the defaults round trip.
*/
module ConstraintTheorems {
  import opened Options
  import opened ConstraintSchema
  import opened ConstraintPaths
  import opened ConstraintValidator

  // ---------- Structure of the error set ----------

  predicate IsContainer(v: Value) { v.Arr? || v.Obj? }

  lemma BoundsAreLocalErrors(v: Value, s: Schema)
    ensures (forall code :: !LocalError(v, s, code)) <==> EnumOk(v, s) && WithinBounds(v, s)
  {
    if forall code :: !LocalError(v, s, code) {
      assert !LocalError(v, s, EnumMismatch);
      assert !LocalError(v, s, MinLength) && !LocalError(v, s, MaxLength);
      assert !LocalError(v, s, MinItems) && !LocalError(v, s, MaxItems);
      assert !LocalError(v, s, Minimum) && !LocalError(v, s, Maximum);
    }
  }

  /** A value is free of errors exactly when the node, its items and its fields are. */
  ghost predicate CleanItems(v: Value, s: Schema) {
    v.Arr? && Items(s).Some? ==> forall i | 0 <= i < |v.items| :: Clean(v.items[i], Items(s).value)
  }

  ghost predicate CleanFields(v: Value, s: Schema) {
    v.Obj? ==>
      var w := WithDefaults(v.fields, s);
      && (forall name :: IsRequired(s, name) ==> name in w)
      && (forall k | k in w :: !Forbidden(s, k))
      && (forall k | k in w && FieldSchema(s, k).Some? :: Clean(w[k], FieldSchema(s, k).value))
  }

  lemma CleanItemsIff(v: Value, s: Schema)
    requires v.Arr? && !NullAccepted(v, s) && TypeOk(v, s)
    ensures CleanItems(v, s) <==> forall e :: e in ErrorSet(v, s) ==> e.0 == []
  {
    if Items(s).Some? {
      forall i, e | 0 <= i < |v.items| && e in ErrorSet(v.items[i], Items(s).value)
        ensures ([Index(i)] + e.0, e.1) in ErrorSet(v, s)
      {
        assert ([Index(i)] + e.0)[1..] == e.0;
      }
    }
  }

  lemma FieldErrorReported(v: Value, s: Schema, k: string, e: Report)
    requires v.Obj? && !NullAccepted(v, s) && TypeOk(v, s)
    requires k in WithDefaults(v.fields, s) && FieldSchema(s, k).Some?
    requires e in ErrorSet(WithDefaults(v.fields, s)[k], FieldSchema(s, k).value)
    ensures ([Key(k)] + e.0, e.1) in ErrorSet(v, s)
  {
    assert ([Key(k)] + e.0)[1..] == e.0;
  }

  lemma CleanFieldsIff(v: Value, s: Schema)
    requires v.Obj? && !NullAccepted(v, s) && TypeOk(v, s)
    ensures CleanFields(v, s) <==> forall e :: e in ErrorSet(v, s) ==> e.0 == []
  {
    var w := WithDefaults(v.fields, s);
    if forall e :: e in ErrorSet(v, s) ==> e.0 == [] {
      forall name | IsRequired(s, name) ensures name in w {
        assert name !in w ==> ([Key(name)], Required) in ErrorSet(v, s);
      }
      forall k | k in w ensures !Forbidden(s, k) {
        assert Forbidden(s, k) ==> ([Key(k)], AdditionalProperty) in ErrorSet(v, s);
      }
      forall k | k in w && FieldSchema(s, k).Some? ensures Clean(w[k], FieldSchema(s, k).value) {
        forall e | e in ErrorSet(w[k], FieldSchema(s, k).value) ensures false { FieldErrorReported(v, s, k, e); }
      }
    }
  }

  lemma CleanIff(v: Value, s: Schema)
    ensures Clean(v, s) <==>
            NullAccepted(v, s)
            || (TypeOk(v, s) && EnumOk(v, s) && WithinBounds(v, s) && CleanItems(v, s) && CleanFields(v, s))
  {
    if !NullAccepted(v, s) {
      if TypeOk(v, s) {
        BoundsAreLocalErrors(v, s);
        assert forall code :: LocalError(v, s, code) <==> ([], code) in ErrorSet(v, s);
        if v.Arr? { CleanItemsIff(v, s); }
        if v.Obj? { CleanFieldsIff(v, s); }
      } else {
        assert ([], InvalidType) in ErrorSet(v, s);
      }
    }
  }

  // ---------- Filling keeps the node it fills ----------

  lemma FillKeepsNode(v: Value, s: Schema)
    ensures !IsContainer(v) ==> Fill(v, s) == v
    ensures NullAccepted(Fill(v, s), s) == NullAccepted(v, s)
    ensures TypeOk(Fill(v, s), s) == TypeOk(v, s)
    ensures WithinBounds(Fill(v, s), s) == WithinBounds(v, s)
  {
    var n := Fill(v, s);
    assert forall name :: MatchesType(n, name) == MatchesType(v, name);
  }

  // ---------- Agreement with conformance ----------

  /** At every node the validator visits, filling does not change the verdict of `enum`. */
  ghost predicate EnumAgrees(v: Value, s: Schema)
    decreases s
  {
    NullAccepted(v, s) || !TypeOk(v, s)
    || (&& EnumOk(v, s) == EnumOk(Fill(v, s), s)
        && (v.Arr? && Items(s).Some? ==> forall i | 0 <= i < |v.items| :: EnumAgrees(v.items[i], Items(s).value))
        && (v.Obj? ==>
              var w := WithDefaults(v.fields, s);
              forall k | k in w && FieldSchema(s, k).Some? :: EnumAgrees(w[k], FieldSchema(s, k).value)))
  }

  /** No `enum` list anywhere in the schema holds a list or a dict. */
  ghost predicate ScalarEnums(s: Schema)
    decreases s
  {
    && (match Get(s, "enum")
        case Some(Arr(members)) => forall i | 0 <= i < |members| :: !IsContainer(members[i])
        case _ => true)
    && (Items(s).Some? ==> ScalarEnums(Items(s).value))
    && (forall k :: FieldSchema(s, k).Some? ==> ScalarEnums(FieldSchema(s, k).value))
  }

  lemma {:induction false} ScalarEnumsAgree(v: Value, s: Schema)
    requires ScalarEnums(s)
    ensures EnumAgrees(v, s)
    decreases s
  {
    if !NullAccepted(v, s) && TypeOk(v, s) {
      FillKeepsNode(v, s);
      if IsContainer(v) {
        assert IsContainer(Fill(v, s));
        assert Get(s, "enum").Some? && Get(s, "enum").value.Arr? ==> !EnumOk(v, s) && !EnumOk(Fill(v, s), s);
      }
      if v.Arr? && Items(s).Some? {
        forall i | 0 <= i < |v.items| ensures EnumAgrees(v.items[i], Items(s).value) {
          ScalarEnumsAgree(v.items[i], Items(s).value);
        }
      }
      if v.Obj? {
        var w := WithDefaults(v.fields, s);
        forall k | k in w && FieldSchema(s, k).Some? ensures EnumAgrees(w[k], FieldSchema(s, k).value) {
          ScalarEnumsAgree(w[k], FieldSchema(s, k).value);
        }
      }
    }
  }

  /** Any two of: no errors, conformance of the filled value, enum agreement, give the third. */
  lemma {:induction false} CleanAgainstConforms(v: Value, s: Schema)
    ensures Clean(v, s) && Conforms(Fill(v, s), s) ==> EnumAgrees(v, s)
    ensures EnumAgrees(v, s) ==> (Clean(v, s) <==> Conforms(Fill(v, s), s))
    decreases s
  {
    CleanIff(v, s);
    FillKeepsNode(v, s);
    if !NullAccepted(v, s) && TypeOk(v, s) {
      var n := Fill(v, s);
      if v.Arr? && Items(s).Some? {
        forall i | 0 <= i < |v.items|
          ensures n.items[i] == Fill(v.items[i], Items(s).value)
          ensures Clean(v.items[i], Items(s).value) && Conforms(n.items[i], Items(s).value) ==> EnumAgrees(v.items[i], Items(s).value)
          ensures EnumAgrees(v.items[i], Items(s).value) ==> (Clean(v.items[i], Items(s).value) <==> Conforms(n.items[i], Items(s).value))
        {
          CleanAgainstConforms(v.items[i], Items(s).value);
        }
      }
      if v.Obj? { FieldsAgainstConforms(v, s); }
    }
  }

  lemma {:induction false} FieldsAgainstConforms(v: Value, s: Schema)
    requires v.Obj? && !NullAccepted(v, s) && TypeOk(v, s)
    ensures var w, f := WithDefaults(v.fields, s), Fill(v, s).fields;
      && f.Keys == w.Keys
      && (forall k | k in w && FieldSchema(s, k).Some? ::
           var c := FieldSchema(s, k).value;
           && (Clean(w[k], c) && Conforms(f[k], c) ==> EnumAgrees(w[k], c))
           && (EnumAgrees(w[k], c) ==> (Clean(w[k], c) <==> Conforms(f[k], c))))
    decreases s, 0
  {
    var w := WithDefaults(v.fields, s);
    forall k | k in w && FieldSchema(s, k).Some?
      ensures var f, c := Fill(v, s).fields, FieldSchema(s, k).value;
        && (Clean(w[k], c) && Conforms(f[k], c) ==> EnumAgrees(w[k], c))
        && (EnumAgrees(w[k], c) ==> (Clean(w[k], c) <==> Conforms(f[k], c)))
    {
      CleanAgainstConforms(w[k], FieldSchema(s, k).value);
    }
  }

  /** Soundness and completeness: no errors exactly when the default-filled value conforms. */
  lemma SoundAndComplete(v: Value, s: Schema)
    requires ScalarEnums(s)
    ensures Clean(v, s) <==> Conforms(Fill(v, s), s)
  {
    ScalarEnumsAgree(v, s);
    CleanAgainstConforms(v, s);
  }

  /** With no assumption on the schema: as soon as one of the two says yes, they say the same
      exactly when filling changed no enum verdict. */
  lemma AgreementExactly(v: Value, s: Schema)
    ensures EnumAgrees(v, s) ==> (Clean(v, s) <==> Conforms(Fill(v, s), s))
    ensures Clean(v, s) || Conforms(Fill(v, s), s) ==> ((Clean(v, s) <==> Conforms(Fill(v, s), s)) <==> EnumAgrees(v, s))
  {
    CleanAgainstConforms(v, s);
  }

  // ---------- Idempotence ----------

  lemma FillTwiceSameFields(m: map<string, Value>, s: Schema)
    requires TypeOk(Obj(m), s)
    ensures var w, f := WithDefaults(m, s), Fill(Obj(m), s).fields;
            f.Keys == w.Keys && WithDefaults(f, s) == f
  {
    var w, f := WithDefaults(m, s), Fill(Obj(m), s).fields;
    assert forall k | HasDefault(s, k) :: k in w;
  }

  /** Normalising again changes nothing, for valid and invalid values alike. */
  lemma {:induction false} FillIdempotent(v: Value, s: Schema)
    ensures Fill(Fill(v, s), s) == Fill(v, s)
    decreases s
  {
    FillKeepsNode(v, s);
    if !NullAccepted(v, s) && TypeOk(v, s) {
      var n := Fill(v, s);
      match v {
        case Arr(items) =>
          if Items(s).Some? {
            forall i | 0 <= i < |items| ensures Fill(n.items[i], Items(s).value) == n.items[i] {
              FillIdempotent(items[i], Items(s).value);
            }
            assert Fill(n, s).items == n.items;
          }
        case Obj(m) =>
          FillTwiceSameFields(m, s);
          var w := WithDefaults(m, s);
          forall k | k in w && FieldSchema(s, k).Some? ensures Fill(n.fields[k], FieldSchema(s, k).value) == n.fields[k] {
            FillIdempotent(w[k], FieldSchema(s, k).value);
          }
          assert Fill(n, s).fields == n.fields;
        case _ =>
      }
    }
  }

  /** A value that normalising leaves alone has no default to record. */
  lemma {:induction false} NormalNeedsNoDefault(n: Value, s: Schema)
    requires Fill(n, s) == n
    ensures DefaultsOf(n, s) == imap[]
    decreases s
  {
    if !NullAccepted(n, s) && TypeOk(n, s) {
      match n {
        case Arr(items) =>
          if Items(s).Some? {
            forall i | 0 <= i < |items| ensures DefaultsOf(items[i], Items(s).value) == imap[] {
              assert Fill(n, s).items[i] == items[i];
              NormalNeedsNoDefault(items[i], Items(s).value);
            }
          }
        case Obj(f) =>
          assert WithDefaults(f, s).Keys == Fill(n, s).fields.Keys;
          assert WithDefaults(f, s) == f;
          forall k | k in f ensures FieldDefaults(f, f.Keys, s, k) == imap[] {
            assert Fill(n, s).fields[k] == f[k];
            if FieldSchema(s, k).Some? { NormalNeedsNoDefault(f[k], FieldSchema(s, k).value); }
          }
        case _ =>
      }
    }
  }

  /** Validating the normalised value applies no default and normalises to the same value. */
  lemma NormalisedIsNormal(v: Value, s: Schema)
    ensures Fill(Fill(v, s), s) == Fill(v, s) && DefaultsOf(Fill(v, s), s) == imap[]
  {
    FillIdempotent(v, s);
    NormalNeedsNoDefault(Fill(v, s), s);
  }

  /** A value accepted once is accepted again on its normalised form, exactly when filling
      did not change an enum verdict; scalar enums guarantee that. */
  lemma {:induction false} AcceptedAgain(v: Value, s: Schema)
    requires Clean(v, s)
    ensures Clean(Fill(v, s), s) <==> EnumAgrees(v, s)
    ensures ScalarEnums(s) ==> Clean(Fill(v, s), s)
  {
    CleanAgainstConforms(v, s);
    FillIdempotent(v, s);
    CleanAgainstConforms(Fill(v, s), s);
    EnumAgreesOnFilled(Fill(v, s), s);
    if ScalarEnums(s) { ScalarEnumsAgree(v, s); }
  }

  lemma {:induction false} EnumAgreesOnFilled(n: Value, s: Schema)
    requires Fill(n, s) == n
    ensures EnumAgrees(n, s)
    decreases s
  {
    if !NullAccepted(n, s) && TypeOk(n, s) {
      if n.Arr? && Items(s).Some? {
        forall i | 0 <= i < |n.items| ensures EnumAgrees(n.items[i], Items(s).value) {
          assert Fill(n, s).items[i] == n.items[i];
          EnumAgreesOnFilled(n.items[i], Items(s).value);
        }
      }
      if n.Obj? {
        var w := WithDefaults(n.fields, s);
        assert w.Keys == Fill(n, s).fields.Keys;
        assert w == n.fields;
        forall k | k in w && FieldSchema(s, k).Some? ensures EnumAgrees(w[k], FieldSchema(s, k).value) {
          assert Fill(n, s).fields[k] == n.fields[k];
          EnumAgreesOnFilled(w[k], FieldSchema(s, k).value);
        }
      }
    }
  }

  const FIELD_WITH_DEFAULT: Schema := Obj(map["default" := Int(1)])
  const DICT_ENUM: Schema := Obj(map["enum" := Arr([Obj(map[])]), "properties" := Obj(map["a" := FIELD_WITH_DEFAULT])])

  lemma DictEnumKeywords()
    ensures Properties(DICT_ENUM) == map["a" := FIELD_WITH_DEFAULT] && RequiredList(DICT_ENUM) == []
    ensures Additional(DICT_ENUM) == Bool(true) && TypeNames(DICT_ENUM) == [] && Items(DICT_ENUM) == None
    ensures Get(DICT_ENUM, "enum") == Some(Arr([Obj(map[])]))
    ensures WithDefaults(map[], DICT_ENUM) == map["a" := Int(1)]
    ensures FieldSchema(DICT_ENUM, "a") == Some(FIELD_WITH_DEFAULT)
  {
    assert WithDefaults(map[], DICT_ENUM).Keys == {"a"};
  }

  lemma DefaultFieldClean()
    ensures Clean(Int(1), FIELD_WITH_DEFAULT) && Fill(Int(1), FIELD_WITH_DEFAULT) == Int(1)
  {
    CleanIff(Int(1), FIELD_WITH_DEFAULT);
  }

  lemma DictEnumAccepted()
    ensures Clean(Obj(map[]), DICT_ENUM)
  {
    var v: Value := Obj(map[]);
    DictEnumKeywords();
    DefaultFieldClean();
    assert PyEq(v, [v][0]);
    assert EnumOk(v, DICT_ENUM);
    var w := WithDefaults(v.fields, DICT_ENUM);
    assert w == map["a" := Int(1)];
    assert CleanFields(v, DICT_ENUM);
    CleanIff(v, DICT_ENUM);
  }

  lemma DictEnumFilled()
    ensures Fill(Obj(map[]), DICT_ENUM) == Obj(map["a" := Int(1)])
  {
    DictEnumKeywords();
    DefaultFieldClean();
    assert Fill(Obj(map[]), DICT_ENUM).fields == map["a" := Int(1)];
  }

  /** The restriction on enums is needed: this dict passes its enum, but its filled form does not. */
  lemma DictEnumRejectedSecondTime()
    ensures Clean(Obj(map[]), DICT_ENUM)
    ensures !Clean(Fill(Obj(map[]), DICT_ENUM), DICT_ENUM)
  {
    DictEnumAccepted();
    DictEnumFilled();
    DictEnumKeywords();
    var n: Value := Obj(map["a" := Int(1)]);
    assert "a" in n.fields;
    assert !PyEq(n, Obj(map[]));
    assert LocalError(n, DICT_ENUM, EnumMismatch);
    assert ([], EnumMismatch) in ErrorSet(n, DICT_ENUM);
  }

  // ---------- Defaults round trip ----------

  ghost function Sub(paths: iset<Path>, step: Step): iset<Path> {
    iset p: Path | [step] + p in paths
  }

  /** `n` without the parts that `paths` lead to. */
  ghost function Erase(n: Value, paths: iset<Path>): Value {
    match n
    case Arr(items) => Arr(seq(|items|, i requires 0 <= i < |items| => Erase(items[i], Sub(paths, Index(i)))))
    case Obj(f) => Obj(map k | k in f && [Key(k)] !in paths :: Erase(f[k], Sub(paths, Key(k))))
    case _ => n
  }

  lemma {:induction false} EraseNothing(n: Value)
    ensures Erase(n, iset{}) == n
  {
    match n
    case Arr(items) =>
      forall i | 0 <= i < |items| ensures Erase(items[i], Sub(iset{}, Index(i))) == items[i] {
        assert Sub(iset{}, Index(i)) == iset{};
        EraseNothing(items[i]);
      }
      assert Erase(n, iset{}).items == items;
    case Obj(f) =>
      forall k | k in f ensures Erase(f[k], Sub(iset{}, Key(k))) == f[k] {
        assert Sub(iset{}, Key(k)) == iset{};
        EraseNothing(f[k]);
      }
      assert Erase(n, iset{}).fields == f;
    case _ =>
  }

  lemma SubOfItem(items: seq<Value>, s: Schema, i: nat)
    requires i < |items| && Items(s).Some? && TypeOk(Arr(items), s)
    ensures Sub(DefaultsOf(Arr(items), s).Keys, Index(i)) == DefaultsOf(items[i], Items(s).value).Keys
  {
    forall p: Path ensures [Index(i)] + p in DefaultsOf(Arr(items), s) <==> p in DefaultsOf(items[i], Items(s).value) {
      InItem(items, s, i, p);
    }
  }

  lemma InItem(items: seq<Value>, s: Schema, i: nat, p: Path)
    requires i < |items| && Items(s).Some? && TypeOk(Arr(items), s)
    ensures [Index(i)] + p in DefaultsOf(Arr(items), s) <==> p in DefaultsOf(items[i], Items(s).value)
  {
    assert ([Index(i)] + p)[1..] == p && ([Index(i)] + p)[0] == Index(i);
  }

  lemma SubOfField(m: map<string, Value>, s: Schema, k: string)
    requires k in m && TypeOk(Obj(m), s)
    ensures Sub(DefaultsOf(Obj(m), s).Keys, Key(k)) ==
            if FieldSchema(s, k).Some? then DefaultsOf(m[k], FieldSchema(s, k).value).Keys else iset{}
  {
    forall p: Path
      ensures [Key(k)] + p in DefaultsOf(Obj(m), s) <==>
              FieldSchema(s, k).Some? && p in DefaultsOf(m[k], FieldSchema(s, k).value)
    {
      InField(m, s, k, p);
    }
  }

  lemma InField(m: map<string, Value>, s: Schema, k: string, p: Path)
    requires k in m && TypeOk(Obj(m), s)
    ensures [Key(k)] + p in DefaultsOf(Obj(m), s) <==> FieldSchema(s, k).Some? && p in DefaultsOf(m[k], FieldSchema(s, k).value)
  {
    InObject(m, s, k, p);
    assert WithDefaults(m, s)[k] == m[k];
  }

  lemma InObject(m: map<string, Value>, s: Schema, k: string, p: Path)
    requires TypeOk(Obj(m), s) && k in WithDefaults(m, s)
    ensures [Key(k)] + p in DefaultsOf(Obj(m), s) <==> p in FieldDefaults(WithDefaults(m, s), m.Keys, s, k)
  {
    assert ([Key(k)] + p)[1..] == p && ([Key(k)] + p)[0] == Key(k);
    DefaultPath(m, s, [Key(k)] + p);
  }

  lemma NoDefaultAtRoot(v: Value, s: Schema)
    ensures [] !in DefaultsOf(v, s)
  {
  }

  lemma DefaultedFields(m: map<string, Value>, s: Schema, k: string)
    requires TypeOk(Obj(m), s)
    ensures [Key(k)] in DefaultsOf(Obj(m), s) <==> k in WithDefaults(m, s) && k !in m
  {
    assert [Key(k)][1..] == [];
    if k in WithDefaults(m, s) && FieldSchema(s, k).Some? {
      NoDefaultAtRoot(WithDefaults(m, s)[k], FieldSchema(s, k).value);
    }
  }

  /** Erasing exactly the recorded default paths from the normalised value gives back the
      input: no input key is dropped or changed, whether or not the input was valid. */
  lemma {:induction false} DefaultsRoundTrip(v: Value, s: Schema)
    ensures Erase(Fill(v, s), DefaultsOf(v, s).Keys) == v
    decreases s, 2
  {
    if NullAccepted(v, s) || !TypeOk(v, s) || !IsContainer(v) || (v.Arr? && Items(s).None?) {
      FillKeepsNode(v, s);
      EraseNothing(v);
    } else if v.Arr? {
      var n, d := Fill(v, s), DefaultsOf(v, s).Keys;
      forall i | 0 <= i < |v.items| ensures Erase(n.items[i], Sub(d, Index(i))) == v.items[i] {
        SubOfItem(v.items, s, i);
        DefaultsRoundTrip(v.items[i], Items(s).value);
      }
      assert Erase(n, d).items == v.items;
    } else {
      RoundTripObject(v.fields, s);
    }
  }

  lemma {:induction false} RoundTripObject(m: map<string, Value>, s: Schema)
    requires TypeOk(Obj(m), s)
    ensures Erase(Fill(Obj(m), s), DefaultsOf(Obj(m), s).Keys) == Obj(m)
    decreases s, 1
  {
    var f, d := Fill(Obj(m), s).fields, DefaultsOf(Obj(m), s).Keys;
    assert f.Keys == WithDefaults(m, s).Keys;
    forall k | k in f ensures [Key(k)] in d <==> k !in m {
      DefaultedFields(m, s, k);
    }
    forall k | k in m ensures Erase(f[k], Sub(d, Key(k))) == m[k] {
      RoundTripField(m, s, k);
    }
    EraseFields(f, d, m);
  }

  lemma EraseFields(f: map<string, Value>, d: iset<Path>, m: map<string, Value>)
    requires forall k | k in f :: [Key(k)] in d <==> k !in m
    requires m.Keys <= f.Keys && forall k | k in m :: Erase(f[k], Sub(d, Key(k))) == m[k]
    ensures Erase(Obj(f), d) == Obj(m)
  {
    assert Erase(Obj(f), d).fields == m;
  }

  lemma {:induction false} RoundTripField(m: map<string, Value>, s: Schema, k: string)
    requires k in m && TypeOk(Obj(m), s)
    ensures Erase(Fill(Obj(m), s).fields[k], Sub(DefaultsOf(Obj(m), s).Keys, Key(k))) == m[k]
    decreases s, 0
  {
    SubOfField(m, s, k);
    if FieldSchema(s, k).Some? {
      DefaultsRoundTrip(m[k], FieldSchema(s, k).value);
    } else {
      EraseNothing(m[k]);
    }
  }

  // ---------- Deprecated schemas ----------

  function TypeSchema(t: string): Schema { Obj(map["type" := Str(t)]) }

  lemma TypeSchemaKeywords(v: Value, t: string)
    ensures var s := TypeSchema(t);
      && (TypeOk(v, s) <==> MatchesType(v, t)) && !NullAccepted(v, s) && EnumOk(v, s) && WithinBounds(v, s)
      && Items(s) == None && Properties(s) == map[] && RequiredList(s) == [] && Additional(s) == Bool(true)
  {
    var s := TypeSchema(t);
    assert TypeNames(s) == [Str(t)];
    assert MatchesType(v, t) ==> TypeNames(s)[0].Str? && MatchesType(v, TypeNames(s)[0].s);
  }

  /** The schema the adapter builds for one `{name: type}` entry. */
  lemma TypeOnly(v: Value, t: string)
    ensures Clean(v, TypeSchema(t)) <==> MatchesType(v, t)
    ensures Fill(v, TypeSchema(t)) == v
  {
    var s := TypeSchema(t);
    TypeSchemaKeywords(v, t);
    CleanIff(v, s);
    if v.Obj? {
      assert WithDefaults(v.fields, s) == v.fields;
      if TypeOk(v, s) { assert Fill(v, s).fields == v.fields; }
    }
  }

  /** What each type name accepts, in the source's terms. */
  lemma TypeMeaning(v: Value)
    ensures Clean(v, TypeSchema("string")) <==> v.Str?
    ensures Clean(v, TypeSchema("boolean")) <==> v.Bool?
    ensures Clean(v, TypeSchema("integer")) <==> v.Int?
    ensures Clean(v, TypeSchema("number")) <==> v.Int? || v.Float?
    ensures Clean(v, TypeSchema("array")) <==> v.Arr?
    ensures Clean(v, TypeSchema("object")) <==> v.Obj?
    ensures Clean(v, TypeSchema("null")) <==> v.Null?
    ensures !Clean(v, TypeSchema("any"))
  {
    TypeOnly(v, "string");
    TypeOnly(v, "boolean");
    TypeOnly(v, "integer");
    TypeOnly(v, "number");
    TypeOnly(v, "array");
    TypeOnly(v, "object");
    TypeOnly(v, "null");
    TypeOnly(v, "any");
  }

  /** Equality in `enum`: numbers across types, truth values as 0 and 1, containers member by member. */
  lemma EnumEquality(n: int, text: string, items: seq<Value>, x: Value, y: Value)
    ensures PyEq(Int(n), Float(n as real)) && PyEq(Float(n as real), Int(n))
    ensures PyEq(Bool(true), Int(n)) <==> n == 1
    ensures PyEq(Bool(false), Int(n)) <==> n == 0
    ensures !PyEq(Str(text), Int(n)) && !PyEq(Null, Bool(false)) && !PyEq(Null, Int(n))
    ensures PyEq(Str(text), y) <==> y == Str(text)
    ensures PyEq(Arr([x]), Arr([y])) <==> PyEq(x, y)
    ensures PyEq(Obj(map[text := x]), Obj(map[text := y])) <==> PyEq(x, y)
  {
    assert [x][0] == x && [y][0] == y;
    var f, g := map[text := x], map[text := y];
    assert f.Keys == g.Keys && text in f && f[text] == x && g[text] == y;
  }

  /** The error a keyword reports, at the value itself, by the numbers in the schema. */
  lemma LengthErrors(v: Value, s: Schema, keyword: string, k: int)
    requires TypeOk(v, s) && !NullAccepted(v, s) && keyword in s.fields && s.fields[keyword] == Int(k)
    ensures keyword == "minLength" ==> (([], MinLength) in ErrorSet(v, s) <==> v.Str? && |v.s| < k)
    ensures keyword == "maxLength" ==> (([], MaxLength) in ErrorSet(v, s) <==> v.Str? && |v.s| > k)
    ensures keyword == "minItems" ==> (([], MinItems) in ErrorSet(v, s) <==> v.Arr? && |v.items| < k)
    ensures keyword == "maxItems" ==> (([], MaxItems) in ErrorSet(v, s) <==> v.Arr? && |v.items| > k)
  {
  }

  lemma RangeErrors(v: Value, s: Schema, keyword: string, k: int)
    requires TypeOk(v, s) && !NullAccepted(v, s) && keyword in s.fields && s.fields[keyword] == Int(k)
    ensures keyword == "minimum" ==>
              (([], Minimum) in ErrorSet(v, s) <==> (v.Int? && v.n < k) || (v.Float? && v.x < k as real))
    ensures keyword == "maximum" ==>
              (([], Maximum) in ErrorSet(v, s) <==> (v.Int? && v.n > k) || (v.Float? && v.x > k as real))
  {
  }

  /** An object schema whose fields are each left alone by their own schema leaves the object alone. */
  lemma FieldwiseObject(c: map<string, Value>, s: Schema)
    requires TypeOk(Obj(c), s) && EnumOk(Obj(c), s) && RequiredList(s) == []
    requires WithDefaults(c, s) == c
    requires forall k | k in c && FieldSchema(s, k).Some? :: Fill(c[k], FieldSchema(s, k).value) == c[k]
    ensures Fill(Obj(c), s) == Obj(c)
    ensures Clean(Obj(c), s) <==>
            forall k | k in c :: !Forbidden(s, k) && (FieldSchema(s, k).Some? ==> Clean(c[k], FieldSchema(s, k).value))
  {
    assert Fill(Obj(c), s).fields == c;
    CleanIff(Obj(c), s);
  }

  lemma AdaptedKeywords(c: map<string, Value>, s: Schema)
    requires s.fields.Keys * KEYWORDS == {}
    ensures var a: Schema := Adapt(s).0;
      && TypeOk(Obj(c), a) && EnumOk(Obj(c), a) && RequiredList(a) == [] && WithDefaults(c, a) == c
      && (s.fields == map[] ==> Properties(a) == map[] && Additional(a) == Bool(true))
      && (s.fields != map[] ==>
            && (forall k :: k in Properties(a) <==> k in s.fields && s.fields[k].Str?)
            && (forall k | k in Properties(a) :: Properties(a)[k] == TypeSchema(s.fields[k].s))
            && Additional(a) == Bool(false))
  {
    var a: Schema := Adapt(s).0;
    assert TypeNames(a) == [Str("object")];
    assert TypeNames(a)[0].Str? && MatchesType(Obj(c), TypeNames(a)[0].s);
    assert WithDefaults(c, a) == c;
  }

  /** A `{name: type}` dict accepts exactly the dicts whose every field is declared with a
      matching type; the empty schema accepts everything. Neither fills anything in. */
  lemma LegacySchemaMeaning(c: map<string, Value>, s: Schema)
    requires s.fields.Keys * KEYWORDS == {}
    ensures s.fields != map[] ==>
              (Clean(Obj(c), Adapt(s).0) <==>
                 forall k | k in c :: k in s.fields && s.fields[k].Str? && MatchesType(c[k], s.fields[k].s))
    ensures s.fields == map[] ==> Clean(Obj(c), Adapt(s).0)
    ensures Fill(Obj(c), Adapt(s).0) == Obj(c)
  {
    var a: Schema := Adapt(s).0;
    AdaptedKeywords(c, s);
    forall k | k in c && FieldSchema(a, k).Some?
      ensures k in s.fields && s.fields[k].Str?
      ensures Fill(c[k], FieldSchema(a, k).value) == c[k]
      ensures Clean(c[k], FieldSchema(a, k).value) <==> MatchesType(c[k], s.fields[k].s)
    {
      TypeOnly(c[k], s.fields[k].s);
    }
    FieldwiseObject(c, a);
  }

  // ---------- The dict of applied defaults ----------

  const B_HAS_DEFAULT: Schema := Obj(map["default" := Int(2)])
  const DOTTED_HAS_DEFAULT: Schema := Obj(map["default" := Int(1)])
  const INNER: Schema := Obj(map["properties" := Obj(map["b" := B_HAS_DEFAULT])])
  const OUTER: Schema := Obj(map["properties" := Obj(map["a.b" := DOTTED_HAS_DEFAULT, "a" := INNER])])

  /** Where the defaults of an object come from, one path at a time. */
  lemma DefaultSource(m: map<string, Value>, s: Schema, w: map<string, Value>, p: Path)
    requires TypeOk(Obj(m), s) && w == WithDefaults(m, s)
    ensures p in DefaultsOf(Obj(m), s) <==>
              && p != [] && p[0].Key? && p[0].name in w
              && (|| (p[0].name !in m && p[1..] == [])
                  || (FieldSchema(s, p[0].name).Some? && p[1..] in DefaultsOf(w[p[0].name], FieldSchema(s, p[0].name).value)))
  {
    DefaultPath(m, s, p);
  }

  lemma ScalarHasNone(v: Value, s: Schema)
    requires !v.Arr? && !v.Obj?
    ensures DefaultsOf(v, s) == imap[]
  {
  }

  lemma InnerKeywords()
    ensures TypeOk(Obj(map[]), INNER) && WithDefaults(map[], INNER) == map["b" := Int(2)]
    ensures FieldSchema(INNER, "b") == Some(B_HAS_DEFAULT)
  {
    assert Properties(INNER) == map["b" := B_HAS_DEFAULT];
  }

  lemma InnerDefaults(p: Path)
    ensures p in DefaultsOf(Obj(map[]), INNER) <==> p == [Key("b")]
  {
    InnerKeywords();
    DefaultSource(map[], INNER, map["b" := Int(2)], p);
    ScalarHasNone(Int(2), B_HAS_DEFAULT);
    if p != [] { assert p == [p[0]] + p[1..]; }
  }

  lemma OuterKeywords()
    ensures TypeOk(Obj(map["a" := Obj(map[])]), OUTER)
    ensures WithDefaults(map["a" := Obj(map[])], OUTER) == map["a.b" := Int(1), "a" := Obj(map[])]
    ensures FieldSchema(OUTER, "a.b") == Some(DOTTED_HAS_DEFAULT) && FieldSchema(OUTER, "a") == Some(INNER)
  {
    assert Properties(OUTER) == map["a.b" := DOTTED_HAS_DEFAULT, "a" := INNER];
  }

  /** The same for any object with a field `a.b` filled in and a field `a` whose own `b` is. */
  lemma TwoDefaults(m: map<string, Value>, s: Schema, w: map<string, Value>, p: Path)
    requires TypeOk(Obj(m), s) && w == WithDefaults(m, s) && w.Keys == {"a.b", "a"} && m.Keys == {"a"}
    requires FieldSchema(s, "a.b").Some? && DefaultsOf(w["a.b"], FieldSchema(s, "a.b").value) == imap[]
    requires FieldSchema(s, "a").Some? && forall q :: q in DefaultsOf(w["a"], FieldSchema(s, "a").value) <==> q == [Key("b")]
    ensures p in DefaultsOf(Obj(m), s) <==> p == [Key("a.b")] || p == [Key("a"), Key("b")]
  {
    DefaultSource(m, s, w, p);
    if p != [] { assert p == [p[0]] + p[1..]; }
  }

  lemma OuterDefaults(p: Path)
    ensures p in DefaultsOf(Obj(map["a" := Obj(map[])]), OUTER) <==> p == [Key("a.b")] || p == [Key("a"), Key("b")]
  {
    OuterKeywords();
    ScalarHasNone(Int(1), DOTTED_HAS_DEFAULT);
    forall q { InnerDefaults(q); }
    TwoDefaults(map["a" := Obj(map[])], OUTER, map["a.b" := Int(1), "a" := Obj(map[])], p);
  }

  lemma SameSpelling()
    ensures Spelled([Key("a.b")]) == "a.b" && Spelled([Key("a"), Key("b")]) == "a.b"
  {
    assert Names([Key("a.b")]) == ["a.b"] && Names([Key("a"), Key("b")]) == ["a", "b"];
    assert ["a", "b"][..1] == ["a"] && ["a"][..0] == [] && ["a.b"][..0] == [];
  }

  lemma OneEntry(printed: map<string, Value>, d: imap<Path, Value>, p: Path, q: Path)
    requires Records(printed, d) && Spelled(p) == Spelled(q) && forall r :: r in d <==> r == p || r == q
    ensures printed.Keys == {Spelled(p)}
  {
    assert p in d;
  }

  /** A key with a dot can cost an entry: two defaults are applied, and the dict has room for one. */
  lemma DefaultLost(printed: map<string, Value>, d: imap<Path, Value>)
    requires d == DefaultsOf(Obj(map["a" := Obj(map[])]), OUTER) && Records(printed, d)
    ensures forall p :: p in d <==> p == [Key("a.b")] || p == [Key("a"), Key("b")]
    ensures printed.Keys == {"a.b"}
  {
    forall p { OuterDefaults(p); }
    SameSpelling();
    OneEntry(printed, d, [Key("a.b")], [Key("a"), Key("b")]);
  }
}
