/**
  The part of Mongoose the ledger's schemas use: documents as maps from path to value,
  the `trim`/`uppercase`/`lowercase` setters, defaults, and the `required`, `minlength`,
  `maxlength`, `match`, `enum` and `min` validators, both on save (every path) and on an
  update with `runValidators` (only the paths the update sets).
 */
module Schema {
  import opened Wrappers
  import opened Text
  import opened Patterns

  // ---------------------------------------------------------------- documents

  /** A field value as a request body or a stored document holds it; a date is an opaque instant. */
  datatype Value = Str(s: string) | Num(n: real) | Bool(b: bool) | Time(t: int)

  /** A document or a request body: the paths that are present, with their values. */
  type Doc = map<string, Value>

  /** `doc.path`, `undefined` being `None`. */
  function Get(d: Doc, path: string): (v: Option<Value>)
    ensures v.Some? <==> path in d
    ensures v.Some? ==> v.value == d[path]
  {
    if path in d then Some(d[path]) else None
  }

  /** JavaScript truthiness of a field that may be `undefined`: "", 0 and false are falsy. */
  predicate Truthy(v: Option<Value>)
  {
    match v
    case None => false
    case Some(Str(s)) => s != ""
    case Some(Num(n)) => n != 0.0
    case Some(Bool(b)) => b
    case Some(Time(_)) => true
  }

  /**
    `field && field !== existing.field`: the body carries a truthy value at `path` other than
    the stored one, the condition under which an update route re-runs a uniqueness lookup.
   */
  predicate Changed(stored: Doc, body: Doc, path: string)
  {
    Truthy(Get(body, path)) && Get(body, path) != Get(stored, path)
  }

  /** The text at `path`, when the document holds text there. */
  function TextAt(d: Doc, path: string): Option<string>
  {
    if path in d && d[path].Str? then Some(d[path].s) else None
  }

  /** The path holds non-empty text. */
  predicate HasText(d: Doc, path: string)
  {
    path in d && d[path].Str? && d[path].s != ""
  }

  /** The path is absent or holds text of at most `n` characters. */
  predicate OptionalTextUpTo(d: Doc, path: string, n: nat)
  {
    path !in d || (d[path].Str? && |d[path].s| <= n)
  }

  /** The path is absent or holds a number not below zero. */
  predicate OptionalNonNegative(d: Doc, path: string)
  {
    path !in d || (d[path].Num? && d[path].n >= 0.0)
  }

  /** The path holds a number not below zero. */
  predicate NonNegative(d: Doc, path: string)
  {
    path in d && d[path].Num? && d[path].n >= 0.0
  }

  /** The path is absent or holds a flag. */
  predicate OptionalFlag(d: Doc, path: string)
  {
    path !in d || d[path].Bool?
  }

  /** The path is absent or holds a date. */
  predicate OptionalDate(d: Doc, path: string)
  {
    path !in d || d[path].Time?
  }

  // ---------------------------------------------------------------- rules

  datatype CaseSetter = KeepCase | ToUpper | ToLower

  /** A `match` validator: a fixed-width shape or the e-mail pattern. */
  datatype Pattern = Shaped(shape: Shape) | EmailAddress

  predicate PatternAccepts(p: Pattern, s: string)
  {
    match p
    case Shaped(sh) => Matches(sh, s)
    case EmailAddress => IsEmail(s)
  }

  /** The options of one schema path that the ledger uses. */
  datatype Rule =
    | TextRule(required: bool, trim: bool, setCase: CaseSetter, minLength: nat,
               maxLength: Option<nat>, pattern: Option<Pattern>, choices: seq<string>,
               textDefault: Option<string>)
    | NumberRule(required: bool, min: Option<real>, numberDefault: Option<real>)
    | FlagRule(flagDefault: Option<bool>)
    | IdRule(required: bool)
    | DateRule(required: bool)

  /** A text path with only a length bound, the commonest rule in the schemas. */
  function PlainText(required: bool, maxLength: nat): Rule
  {
    TextRule(required, true, KeepCase, 0, Some(maxLength), None, [], None)
  }

  /** One declared path with its options. */
  datatype Field = Field(path: string, rule: Rule)

  /** A schema: its paths in declaration order. */
  type Schema = seq<Field>

  /** The rule declared first for `path` at index `k` or later, if any. */
  function RuleFrom(schema: Schema, path: string, k: nat): (r: Option<Rule>)
    ensures r.Some? <==> exists i :: k <= i < |schema| && schema[i].path == path
    ensures r.Some? ==> exists i :: k <= i < |schema| && schema[i] == Field(path, r.value)
    decreases |schema| - k
  {
    if k >= |schema| then None
    else if schema[k].path == path then Some(schema[k].rule)
    else RuleFrom(schema, path, k + 1)
  }

  /** The rule declared first for `path`, if any. */
  function RuleOf(schema: Schema, path: string): (r: Option<Rule>)
    ensures r.Some? <==> Declares(schema, path)
    ensures r.Some? ==> exists i :: 0 <= i < |schema| && schema[i] == Field(path, r.value)
  {
    RuleFrom(schema, path, 0)
  }

  predicate Declares(schema: Schema, path: string)
  {
    exists i :: 0 <= i < |schema| && schema[i].path == path
  }

  /** No path is declared twice. */
  predicate DistinctPaths(schema: Schema)
  {
    forall i, j :: 0 <= i < j < |schema| ==> schema[i].path != schema[j].path
  }

  /** With distinct paths, the rule found for a path is the one declared with it. */
  lemma {:induction false} RuleAt(schema: Schema, i: nat)
    requires DistinctPaths(schema) && i < |schema|
    ensures RuleOf(schema, schema[i].path) == Some(schema[i].rule)
  {
    var r := RuleOf(schema, schema[i].path);
    var k :| 0 <= k < |schema| && schema[k] == Field(schema[i].path, r.value);
    assert k == i;
  }

  // ---------------------------------------------------------------- setters and defaults

  function SetCase(c: CaseSetter, s: string): string
  {
    match c
    case KeepCase => s
    case ToUpper => Upper(s)
    case ToLower => Lower(s)
  }

  /** The setters of a text rule: `trim`, then the case conversion. */
  function SetText(r: Rule, s: string): string
    requires r.TextRule?
  {
    SetCase(r.setCase, if r.trim then Trim(s) else s)
  }

  /** Setting an already set value changes nothing. */
  lemma {:induction false} SetTextIdempotent(r: Rule, s: string)
    requires r.TextRule?
    ensures SetText(r, SetText(r, s)) == SetText(r, s)
  {
    var t := if r.trim then Trim(s) else s;
    if r.trim {
      TrimIdempotent(s);
    }
    match r.setCase
    case KeepCase =>
    case ToUpper =>
      UpperIdempotent(t);
      if r.trim {
        UpperTrimCommute(t);
      }
    case ToLower =>
      LowerIdempotent(t);
      if r.trim {
        LowerTrimCommute(t);
      }
  }

  /** The order of `trim` and the case conversion does not matter. */
  lemma {:induction false} SettersCommute(r: Rule, s: string)
    requires r.TextRule? && r.trim
    ensures SetText(r, s) == Trim(SetCase(r.setCase, s))
  {
    match r.setCase
    case KeepCase =>
    case ToUpper => UpperTrimCommute(s);
    case ToLower => LowerTrimCommute(s);
  }

  /** A query value already in the path's case goes through the setters as the trimmed text. */
  lemma {:induction false} CasedQuery(r: Rule, a: string)
    requires r.TextRule? && r.trim && r.setCase != KeepCase
    ensures var cased := SetCase(r.setCase, a);
      CastValue(Some(r), Str(cased)) == Str(SetCase(r.setCase, Trim(a)))
  {
    if r.setCase == ToUpper {
      UpperTrimCommute(a);
      UpperTrimCommute(Upper(a));
      UpperIdempotent(a);
    } else {
      LowerTrimCommute(a);
      LowerTrimCommute(Lower(a));
      LowerIdempotent(a);
    }
  }

  /**
    A value as the schema casts it: text goes through the setters, anything else is kept. The
    casts that change a value's kind (a number or boolean to text, "true"/"yes"/"1" and the like to
    a boolean, a boolean to a number) are not part of this model.
   */
  function CastValue(r: Option<Rule>, v: Value): Value
  {
    if r.Some? && r.value.TextRule? && v.Str? then Str(SetText(r.value, v.s)) else v
  }

  /** Every present path of `d` through its setters. */
  function Normalize(schema: Schema, d: Doc): (n: Doc)
    ensures n.Keys == d.Keys
  {
    map p | p in d :: CastValue(RuleOf(schema, p), d[p])
  }

  lemma {:induction false} NormalizeIdempotent(schema: Schema, d: Doc)
    ensures Normalize(schema, Normalize(schema, d)) == Normalize(schema, d)
  {
    var n := Normalize(schema, d);
    forall p | p in n
      ensures CastValue(RuleOf(schema, p), n[p]) == n[p]
    {
      var r := RuleOf(schema, p);
      if r.Some? && r.value.TextRule? && d[p].Str? {
        SetTextIdempotent(r.value, d[p].s);
      }
    }
  }

  function DefaultOf(r: Rule): Option<Value>
  {
    match r
    case TextRule(_, _, _, _, _, _, _, t) => if t.Some? then Some(Str(t.value)) else None
    case NumberRule(_, _, n) => if n.Some? then Some(Num(n.value)) else None
    case FlagRule(b) => if b.Some? then Some(Bool(b.value)) else None
    case IdRule(_) => None
    case DateRule(_) => None
  }

  /** The paths a schema declares. */
  function Paths(schema: Schema): (ps: set<string>)
    ensures forall p :: p in ps <==> Declares(schema, p)
  {
    set i | 0 <= i < |schema| :: schema[i].path
  }

  /** The rule `RuleOf` finds, for a declared path. */
  function FirstRule(schema: Schema, p: string): Rule
    requires Declares(schema, p)
  {
    RuleOf(schema, p).value
  }

  /** A new document gets the default of every absent path that declares one. */
  function WithDefaults(schema: Schema, d: Doc): (r: Doc)
    ensures d.Keys <= r.Keys
  {
    map p | p in d.Keys + Paths(schema) && (p in d || DefaultOf(FirstRule(schema, p)).Some?)
      :: if p in d then d[p] else DefaultOf(FirstRule(schema, p)).value
  }

  /** What `new Model(body)` holds before validation: setters applied, defaults filled in. */
  function Prepare(schema: Schema, body: Doc): (d: Doc)
    ensures body.Keys <= d.Keys
  {
    WithDefaults(schema, Normalize(schema, body))
  }

  /** A path the body sends is stored as the path's setters leave it. */
  lemma {:induction false} PreparedSent(schema: Schema, body: Doc, p: string)
    requires p in body
    ensures p in Prepare(schema, body) && Prepare(schema, body)[p] == CastValue(RuleOf(schema, p), body[p])
  {
  }

  /** The path of field `i` is not declared before it. */
  predicate FirstDeclared(schema: Schema, i: nat)
    requires i < |schema|
  {
    forall j :: 0 <= j < i ==> schema[j].path != schema[i].path
  }

  lemma {:induction false} RuleOfFirst(schema: Schema, i: nat)
    requires i < |schema| && FirstDeclared(schema, i)
    ensures RuleOf(schema, schema[i].path) == Some(schema[i].rule)
  {
    RuleFromFirst(schema, i, 0);
  }

  lemma {:induction false} RuleFromFirst(schema: Schema, i: nat, k: nat)
    requires k <= i < |schema| && FirstDeclared(schema, i)
    ensures RuleFrom(schema, schema[i].path, k) == Some(schema[i].rule)
    decreases i - k
  {
    if k < i {
      RuleFromFirst(schema, i, k + 1);
    }
  }

  /** What a prepared document holds at a declared path: the sent value cast, else the default. */
  lemma {:induction false} PreparedPath(schema: Schema, body: Doc, i: nat)
    requires i < |schema| && FirstDeclared(schema, i)
    ensures var f, d := schema[i], Prepare(schema, body);
      && (f.path in body ==> f.path in d && d[f.path] == CastValue(Some(f.rule), body[f.path]))
      && (f.path !in body && DefaultOf(f.rule).Some? ==> f.path in d && d[f.path] == DefaultOf(f.rule).value)
      && (f.path !in body && DefaultOf(f.rule).None? ==> f.path !in d)
  {
    RuleOfFirst(schema, i);
    assert schema[i].path in Paths(schema);
  }

  // ---------------------------------------------------------------- validators

  /**
    Whether one path passes its validators. Validators other than `required` skip an absent
    value; `required` text must be non-empty; `match` skips the empty string; a value of the
    wrong kind is a cast error.
   */
  predicate PathOk(r: Rule, v: Option<Value>)
  {
    match r
    case TextRule(required, _, _, minLength, maxLength, pattern, choices, _) =>
      (match v
       case None => !required
       case Some(Str(s)) =>
         && (required ==> s != "")
         && minLength <= |s|
         && (maxLength.Some? ==> |s| <= maxLength.value)
         && (pattern.Some? && s != "" ==> PatternAccepts(pattern.value, s))
         && (choices != [] ==> s in choices)
       case Some(_) => false)
    case NumberRule(required, min, _) =>
      (match v
       case None => !required
       case Some(Num(n)) => min.Some? ==> n >= min.value
       case Some(_) => false)
    case FlagRule(_) => v.None? || v.value.Bool?
    case IdRule(required) =>
      (match v
       case None => !required
       case Some(Str(s)) => IsObjectIdText(s)
       case Some(_) => false)
    case DateRule(required) =>
      (match v
       case None => !required
       case Some(Time(_)) => true
       case Some(_) => false)
  }

  /** A plain text path: required text is non-empty, and any text is within the bound. */
  lemma {:induction false} PlainTextPath(d: Doc, path: string, required: bool, n: nat)
    ensures required ==>
      (PathOk(PlainText(required, n), Get(d, path)) <==> HasText(d, path) && |d[path].s| <= n)
    ensures !required ==>
      (PathOk(PlainText(required, n), Get(d, path)) <==> OptionalTextUpTo(d, path, n))
  {
  }

  /** A flag path accepts an absent value or a flag. */
  lemma {:induction false} FlagPath(d: Doc, path: string, default: Option<bool>)
    ensures PathOk(FlagRule(default), Get(d, path)) <==> OptionalFlag(d, path)
  {
  }

  /** A number path with `min: 0`: a required one holds a number not below zero. */
  lemma {:induction false} NonNegativePath(d: Doc, path: string, required: bool, default: Option<real>)
    ensures required ==> (PathOk(NumberRule(required, Some(0.0), default), Get(d, path)) <==> NonNegative(d, path))
    ensures !required ==>
      (PathOk(NumberRule(required, Some(0.0), default), Get(d, path)) <==> OptionalNonNegative(d, path))
  {
  }

  /** A date path accepts a date, and an absent value unless required. */
  lemma {:induction false} DatePath(d: Doc, path: string, required: bool)
    ensures required ==> (PathOk(DateRule(required), Get(d, path)) <==> path in d && d[path].Time?)
    ensures !required ==> (PathOk(DateRule(required), Get(d, path)) <==> OptionalDate(d, path))
  {
  }

  /**
    Whether a value already has the kind its rule declares. A value of another kind is treated as
    one that does not cast, including those Mongoose would convert.
   */
  predicate KindFits(r: Rule, v: Value)
  {
    match r
    case TextRule(_, _, _, _, _, _, _, _) => v.Str?
    case NumberRule(_, _, _) => v.Num?
    case FlagRule(_) => v.Bool?
    case IdRule(_) => v.Str? && IsObjectIdText(v.s)
    case DateRule(_) => v.Time?
  }

  /** A value of the wrong kind fails its path whatever the other validators say. */
  lemma {:induction false} CastFailureFailsPath(r: Rule, v: Value)
    requires !KindFits(r, v)
    ensures !PathOk(r, Some(v))
  {
  }

  /** Whether a whole document passes validation on save. */
  predicate Valid(schema: Schema, d: Doc)
  {
    forall i :: 0 <= i < |schema| ==> PathOk(schema[i].rule, Get(d, schema[i].path))
  }

  /** The paths that fail validation when a whole document is saved. */
  function Failures(schema: Schema, d: Doc): (f: set<string>)
    ensures f == {} <==> Valid(schema, d)
  {
    var f := set i | 0 <= i < |schema| && !PathOk(schema[i].rule, Get(d, schema[i].path)) :: schema[i].path;
    assert !Valid(schema, d) ==> f != {} by {
      if !Valid(schema, d) {
        var i :| 0 <= i < |schema| && !PathOk(schema[i].rule, Get(d, schema[i].path));
        assert schema[i].path in f;
      }
    }
    f
  }

  /** With distinct paths, a path is reported exactly when it is declared and fails its own validators. */
  lemma {:induction false} FailuresMeans(schema: Schema, d: Doc, p: string)
    requires DistinctPaths(schema)
    ensures p in Failures(schema, d) <==> Declares(schema, p) && !PathOk(FirstRule(schema, p), Get(d, p))
  {
    if Declares(schema, p) {
      var i :| 0 <= i < |schema| && schema[i].path == p;
      RuleAt(schema, i);
    }
  }

  /**
    The paths an update with `runValidators` rejects: only paths the update sets are
    validated, each against its value in the update.
   */
  function UpdateFailures(schema: Schema, patch: Doc): set<string>
  {
    set i | 0 <= i < |schema| && schema[i].path in patch && !PathOk(schema[i].rule, Some(patch[schema[i].path]))
      :: schema[i].path
  }

  /** The top-level field a path belongs to: `itemRate` for `itemRate.inr`, the path itself when it has no dot. */
  function Head(p: string): (h: string)
    ensures h <= p && '.' !in h
    ensures '.' in p <==> |h| < |p|
  {
    if p == [] || p[0] == '.' then [] else [p[0]] + Head(p[1..])
  }

  /** The nested objects a body sends; the body carries each of them as its dotted leaf paths. */
  function SentObjects(body: Doc): set<string>
  {
    set q | q in body && '.' in q :: Head(q)
  }

  /**
    `$set` of a nested object replaces the whole sub-document: a stored path under an object
    the body sends is gone unless the body sends that leaf too.
   */
  predicate Overwritten(body: Doc, p: string)
  {
    '.' in p && Head(p) in SentObjects(body)
  }

  /** The stored paths an update leaves in place. */
  function Kept(stored: Doc, body: Doc): (d: Doc)
    ensures forall p :: p in d <==> p in stored && !Overwritten(body, p)
    ensures forall p :: p in d ==> d[p] == stored[p]
  {
    map p | p in stored && !Overwritten(body, p) :: stored[p]
  }

  /** Two bodies with the same paths send the same nested objects. */
  lemma {:induction false} SameKeysSameObjects(a: Doc, b: Doc)
    requires a.Keys == b.Keys
    ensures SentObjects(a) == SentObjects(b)
  {
  }

  /**
    Validating only the paths an update sets is enough: a valid stored document stays valid
    once a patch that passes the update validators is applied to it, provided every declared
    path the patch drops (a leaf of a nested object it replaces without sending that leaf)
    may be absent.
   */
  lemma {:induction false} ValidUpdateKeepsDocumentValid(schema: Schema, stored: Doc, patch: Doc)
    requires Valid(schema, stored)
    requires UpdateFailures(schema, patch) == {}
    requires forall i :: 0 <= i < |schema| && Overwritten(patch, schema[i].path) && schema[i].path !in patch ==>
      PathOk(schema[i].rule, None)
    ensures Valid(schema, Kept(stored, patch) + patch)
  {
    var d := Kept(stored, patch) + patch;
    forall i | 0 <= i < |schema|
      ensures PathOk(schema[i].rule, Get(d, schema[i].path))
    {
      var p := schema[i].path;
      if p in patch {
        assert p !in UpdateFailures(schema, patch);
      } else if Overwritten(patch, p) {
        assert Get(d, p) == None;
      } else {
        assert Get(d, p) == Get(stored, p);
      }
    }
  }

  /** An update that sends one leaf of a nested object removes the object's other stored leaves. */
  lemma {:induction false} NestedSetDropsSiblings(schema: Schema, stored: Doc, body: Doc, q: string, p: string)
    requires ApplyUpdate(schema, stored, body).Success?
    requires q in body && '.' in q && p in stored && p !in body && '.' in p && Head(p) == Head(q)
    ensures p !in ApplyUpdate(schema, stored, body).value
  {
    assert Head(q) in SentObjects(body);
  }

  /** The declared paths of an update whose values do not cast. */
  function CastFailures(schema: Schema, patch: Doc): set<string>
  {
    set i | 0 <= i < |schema| && schema[i].path in patch && !KindFits(schema[i].rule, patch[schema[i].path])
      :: schema[i].path
  }

  /** An update is rejected before validation when a value does not cast, and by its validators otherwise. */
  datatype UpdateError = CastFailed | Rejected(paths: set<string>)

  /**
    `Model.findByIdAndUpdate(id, body, { runValidators: true })`: the body is cast (a value
    that does not cast throws a CastError), then validated, then `$set` on the stored
    document: a top-level path is overwritten, a nested object replaces the stored one whole.
   */
  function ApplyUpdate(schema: Schema, stored: Doc, body: Doc): (r: Result<Doc, UpdateError>)
    ensures r.Failure? && r.error.CastFailed? <==> CastFailures(schema, body) != {}
    ensures r.Success? <==>
      CastFailures(schema, body) == {} && UpdateFailures(schema, Normalize(schema, body)) == {}
    ensures r.Success? ==> r.value.Keys == body.Keys + (set p | p in stored && !Overwritten(body, p))
    ensures r.Success? ==> forall p :: p in stored && p !in body && !Overwritten(body, p) ==> r.value[p] == stored[p]
    ensures r.Success? ==> forall p :: p in body ==> r.value[p] == CastValue(RuleOf(schema, p), body[p])
  {
    var patch := Normalize(schema, body);
    if CastFailures(schema, body) != {} then Failure(CastFailed)
    else
      var failed := UpdateFailures(schema, patch);
      SameKeysSameObjects(body, patch);
      if failed == {} then Success(Kept(stored, patch) + patch) else Failure(Rejected(failed))
  }

  /** The request fields a route reads: those the schema declares. */
  function Pick(schema: Schema, body: Doc): (d: Doc)
    ensures d.Keys == body.Keys * Paths(schema)
    ensures forall p :: p in d ==> d[p] == body[p]
  {
    map p | p in body && p in Paths(schema) :: body[p]
  }

  /** A destructured request: only the named fields of the body, as sent. */
  function Only(body: Doc, keys: set<string>): (d: Doc)
    ensures d.Keys == body.Keys * keys
    ensures forall p :: p in d ==> d[p] == body[p]
  {
    map p | p in body && p in keys :: body[p]
  }

  /** Every text default of the schema is already in the form its setters produce. */
  predicate DefaultsSettled(schema: Schema)
  {
    forall i :: 0 <= i < |schema| && schema[i].rule.TextRule? && schema[i].rule.textDefault.Some? ==>
      SetText(schema[i].rule, schema[i].rule.textDefault.value) == schema[i].rule.textDefault.value
  }

  lemma {:induction false} SettledDefault(schema: Schema, p: string)
    requires DefaultsSettled(schema) && Declares(schema, p)
    requires DefaultOf(FirstRule(schema, p)).Some?
    ensures var r := FirstRule(schema, p); CastValue(Some(r), DefaultOf(r).value) == DefaultOf(r).value
  {
    var r := FirstRule(schema, p);
    var i :| 0 <= i < |schema| && schema[i] == Field(p, r);
  }

  /** Saving a prepared document again with the same schema changes nothing. */
  lemma {:induction false} PrepareIdempotent(schema: Schema, body: Doc)
    requires DefaultsSettled(schema)
    ensures Normalize(schema, Prepare(schema, body)) == Prepare(schema, body)
  {
    var n := Normalize(schema, body);
    var d := Prepare(schema, body);
    NormalizeIdempotent(schema, body);
    forall p | p in d
      ensures CastValue(RuleOf(schema, p), d[p]) == d[p]
    {
      if p in n {
        assert CastValue(RuleOf(schema, p), n[p]) == n[p];
      } else {
        SettledDefault(schema, p);
      }
    }
  }
}
