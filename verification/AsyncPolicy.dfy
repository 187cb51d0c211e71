/** The limits that a controller and a start request put on child runs. */
module AsyncPolicy {
  import opened Wrappers
  import opened Values

  /** Why a request is turned down. */
  datatype Refusal =
    | NegativeLimit
    | BadPropagation
    | BadRole
    | ParentRequired
    | OwnParent
    | ParentNotFound
    | ParentClosed
    | LeafParent
    | SpawnForbidden
    | TooDeep
    | TooManyActive
    | TooManyOfParent
    | TooManyActiveOfParent
    | RunAlreadyExists
    | IdempotencyKeyTaken
    | RunNotFound
    | NotResumable
    | NotCancellable

  datatype Policy = Policy(
    maxGlobalChildRuns: Option<int>, maxChildRunsPerParent: Option<int>, maxSpawnDepth: Option<int>,
    maxChildrenPerRun: Option<int>, allowChildSpawn: Option<bool>, cancelPropagation: Option<string>)
  {
    predicate LimitsValid() {
      LimitValid(maxGlobalChildRuns) && LimitValid(maxChildRunsPerParent) && LimitValid(maxSpawnDepth)
      && LimitValid(maxChildrenPerRun)
    }

    /** What merging and decoding produce. */
    predicate Normal() {
      LimitsValid() && (cancelPropagation.Some? ==> IsPropagation(cancelPropagation.value))
    }
  }

  const NO_POLICY := Policy(None, None, None, None, None, None)

  predicate LimitValid(limit: Option<int>) {
    limit.Some? ==> limit.value >= 0
  }

  predicate IsPropagation(s: string) {
    s == "none" || s == "direct-children" || s == "subtree"
  }

  function NormalPropagation(s: string): Result<string, Refusal> {
    if s == "" then Ok("none") else if IsPropagation(s) then Ok(s) else Err(BadPropagation)
  }

  function Either<T>(overlay: Option<T>, base: Option<T>): Option<T> {
    if overlay.Some? then overlay else base
  }

  function Overlay(base: Policy, overlay: Policy): Policy {
    Policy(Either(overlay.maxGlobalChildRuns, base.maxGlobalChildRuns),
           Either(overlay.maxChildRunsPerParent, base.maxChildRunsPerParent),
           Either(overlay.maxSpawnDepth, base.maxSpawnDepth),
           Either(overlay.maxChildrenPerRun, base.maxChildrenPerRun),
           Either(overlay.allowChildSpawn, base.allowChildSpawn),
           Either(overlay.cancelPropagation, base.cancelPropagation))
  }

  /** Limits first, then the propagation. */
  function Checked(p: Policy): Result<Policy, Refusal> {
    if !p.LimitsValid() then Err(NegativeLimit)
    else if p.cancelPropagation.None? then Ok(p)
    else
      match NormalPropagation(p.cancelPropagation.value)
      case Err(e) => Err(e)
      case Ok(s) => Ok(p.(cancelPropagation := Some(s)))
  }

  function MergePolicies(base: Policy, overlay: Policy): Result<Policy, Refusal> {
    Checked(Overlay(base, overlay))
  }

  /** The overlay's field where it has one, and the base's where it has not; an empty propagation means none. */
  lemma MergeInPlainTerms(base: Policy, overlay: Policy)
    requires MergePolicies(base, overlay).Ok?
    ensures var merged := MergePolicies(base, overlay).value;
            && merged.maxGlobalChildRuns
               == (if overlay.maxGlobalChildRuns.Some? then overlay.maxGlobalChildRuns else base.maxGlobalChildRuns)
            && merged.maxChildRunsPerParent
               == (if overlay.maxChildRunsPerParent.Some? then overlay.maxChildRunsPerParent
                   else base.maxChildRunsPerParent)
            && merged.maxSpawnDepth
               == (if overlay.maxSpawnDepth.Some? then overlay.maxSpawnDepth else base.maxSpawnDepth)
            && merged.maxChildrenPerRun
               == (if overlay.maxChildrenPerRun.Some? then overlay.maxChildrenPerRun else base.maxChildrenPerRun)
            && merged.allowChildSpawn
               == (if overlay.allowChildSpawn.Some? then overlay.allowChildSpawn else base.allowChildSpawn)
            && var given :=
                 if overlay.cancelPropagation.Some? then overlay.cancelPropagation else base.cancelPropagation;
               merged.cancelPropagation == if given == Some("") then Some("none") else given
  {
  }

  /** The limit in force is negative. */
  predicate Negative(own: Option<int>, base: Option<int>) {
    if own.Some? then own.value < 0 else base.Some? && base.value < 0
  }

  /** No limit in force is negative, and the propagation in force is a known one. */
  predicate Acceptable(own: Policy, base: Policy) {
    && !Negative(own.maxGlobalChildRuns, base.maxGlobalChildRuns)
    && !Negative(own.maxChildRunsPerParent, base.maxChildRunsPerParent)
    && !Negative(own.maxSpawnDepth, base.maxSpawnDepth) && !Negative(own.maxChildrenPerRun, base.maxChildrenPerRun)
    && var given := if own.cancelPropagation.Some? then own.cancelPropagation else base.cancelPropagation;
       given.Some? ==> given.value in {"", "none", "direct-children", "subtree"}
  }

  /** Exactly when a merge fails, and with what. */
  lemma MergeFailsIff(base: Policy, overlay: Policy)
    ensures MergePolicies(base, overlay).Ok? <==> Acceptable(overlay, base)
    ensures MergePolicies(base, overlay) == Err(NegativeLimit)
            <==> || Negative(overlay.maxGlobalChildRuns, base.maxGlobalChildRuns)
                 || Negative(overlay.maxChildRunsPerParent, base.maxChildRunsPerParent)
                 || Negative(overlay.maxSpawnDepth, base.maxSpawnDepth)
                 || Negative(overlay.maxChildrenPerRun, base.maxChildrenPerRun)
  {
  }

  /** Merging succeeds only if the overlay alone is acceptable, so a stored request always decodes. */
  lemma MergeChecksOverlay(base: Policy, overlay: Policy)
    requires MergePolicies(base, overlay).Ok?
    ensures Checked(overlay).Ok? && MergePolicies(base, overlay).value.Normal()
  {
  }

  /** A merge that changed nothing relevant to a request without a policy of its own. */
  lemma MergeWithNothing(base: Policy)
    ensures MergePolicies(base, NO_POLICY) == Checked(base)
    ensures base.Normal() ==> MergePolicies(base, NO_POLICY) == Ok(base)
  {
  }

  lemma MergeIsIdempotent(base: Policy, overlay: Policy)
    requires MergePolicies(base, overlay).Ok?
    ensures var merged := MergePolicies(base, overlay).value;
            MergePolicies(merged, merged) == Ok(merged) && MergePolicies(base, merged) == Ok(merged)
  {
  }

  /** Later overlays win, and merging one at a time is merging them all. */
  lemma MergeIsAssociative(a: Policy, b: Policy, c: Policy)
    requires a.Normal() && b.Normal() && c.Normal()
    ensures MergePolicies(a, b).Ok? && MergePolicies(b, c).Ok?
    ensures MergePolicies(MergePolicies(a, b).value, c) == MergePolicies(a, MergePolicies(b, c).value)
  {
  }

  // ---------------------------------------------------------------- the value form

  /** Sets the key only for a present value. */
  function PutIf(v: Value, key: string, field: Option<Value>): Value {
    if field.Some? then v.With(key, field.value) else v
  }

  function LimitToValue(limit: Option<int>): Option<Value> {
    if limit.Some? then Some(Int(limit.value)) else None
  }

  function LimitsToValue(p: Policy): Value {
    PutIf(PutIf(PutIf(PutIf(Obj(map[]), "maxGlobalChildRuns", LimitToValue(p.maxGlobalChildRuns)),
                      "maxChildRunsPerParent", LimitToValue(p.maxChildRunsPerParent)),
                "maxSpawnDepth", LimitToValue(p.maxSpawnDepth)),
          "maxChildrenPerRun", LimitToValue(p.maxChildrenPerRun))
  }

  function PolicyToValue(p: Policy): Value {
    PutIf(PutIf(LimitsToValue(p), "allowChildSpawn",
                if p.allowChildSpawn.Some? then Some(Bool(p.allowChildSpawn.value)) else None),
          "cancelPropagation",
          if p.cancelPropagation.Some? then Some(Str(p.cancelPropagation.value)) else None)
  }

  function LimitFrom(v: Value): Option<int> {
    if v.Num? then Some(v.AsInteger(0)) else None
  }

  /** Decoding checks what it reads; the propagation comes first here. */
  function PolicyFromValue(v: Value): Result<Policy, Refusal> {
    if !v.Obj? then Ok(NO_POLICY)
    else
      var propagation := v.At("cancelPropagation");
      if propagation.Str? && NormalPropagation(propagation.s).Err? then Err(BadPropagation)
      else
        Checked(Policy(
          LimitFrom(v.At("maxGlobalChildRuns")), LimitFrom(v.At("maxChildRunsPerParent")),
          LimitFrom(v.At("maxSpawnDepth")), LimitFrom(v.At("maxChildrenPerRun")),
          if v.At("allowChildSpawn").Bool? then Some(v.At("allowChildSpawn").b) else None,
          if propagation.Str? then Some(propagation.s) else None))
  }

  lemma PutIfAt(v: Value, key: string, field: Option<Value>)
    ensures PutIf(v, key, field).At(key) == field.GetOr(v.At(key))
    ensures forall other | other != key :: PutIf(v, key, field).At(other) == v.At(other)
  {
  }

  const POLICY_KEYS := ["maxGlobalChildRuns", "maxChildRunsPerParent", "maxSpawnDepth", "maxChildrenPerRun",
                        "allowChildSpawn", "cancelPropagation"]

  lemma KeysDiffer()
    ensures |POLICY_KEYS| == 6 && forall i, j | 0 <= i < j < 6 :: POLICY_KEYS[i] != POLICY_KEYS[j]
  {
    assert |POLICY_KEYS[0]| == 18 && |POLICY_KEYS[1]| == 21 && |POLICY_KEYS[2]| == 13;
    assert |POLICY_KEYS[3]| == 17 && |POLICY_KEYS[4]| == 15 && |POLICY_KEYS[5]| == 17;
    assert POLICY_KEYS[3][0] == 'm' && POLICY_KEYS[5][0] == 'c';
  }

  /** Four fields put under different keys. */
  lemma FourFields(a: string, b: string, c: string, d: string, fields: seq<Option<Value>>)
    requires a != b && a != c && a != d && b != c && b != d && c != d && |fields| == 4
    ensures var v := PutIf(PutIf(PutIf(PutIf(Obj(map[]), a, fields[0]), b, fields[1]), c, fields[2]), d, fields[3]);
            && v.At(a) == fields[0].GetOr(Null) && v.At(b) == fields[1].GetOr(Null)
            && v.At(c) == fields[2].GetOr(Null) && v.At(d) == fields[3].GetOr(Null)
            && forall key | key != a && key != b && key != c && key != d :: v.At(key) == Null
  {
    var v1 := PutIf(Obj(map[]), a, fields[0]);
    var v2 := PutIf(v1, b, fields[1]);
    PutIfAt(Obj(map[]), a, fields[0]);
    PutIfAt(v1, b, fields[1]);
    PutIfAt(v2, c, fields[2]);
    PutIfAt(PutIf(v2, c, fields[2]), d, fields[3]);
  }

  lemma LimitFields(p: Policy)
    ensures var v := LimitsToValue(p);
            && LimitFrom(v.At("maxGlobalChildRuns")) == p.maxGlobalChildRuns
            && LimitFrom(v.At("maxChildRunsPerParent")) == p.maxChildRunsPerParent
            && LimitFrom(v.At("maxSpawnDepth")) == p.maxSpawnDepth
            && LimitFrom(v.At("maxChildrenPerRun")) == p.maxChildrenPerRun
            && v.At("allowChildSpawn") == Null && v.At("cancelPropagation") == Null
  {
    KeysDiffer();
    FourFields("maxGlobalChildRuns", "maxChildRunsPerParent", "maxSpawnDepth", "maxChildrenPerRun",
               [LimitToValue(p.maxGlobalChildRuns), LimitToValue(p.maxChildRunsPerParent),
                LimitToValue(p.maxSpawnDepth), LimitToValue(p.maxChildrenPerRun)]);
  }

  lemma PolicyFields(p: Policy)
    ensures var v := PolicyToValue(p);
            && LimitFrom(v.At("maxGlobalChildRuns")) == p.maxGlobalChildRuns
            && LimitFrom(v.At("maxChildRunsPerParent")) == p.maxChildRunsPerParent
            && LimitFrom(v.At("maxSpawnDepth")) == p.maxSpawnDepth
            && LimitFrom(v.At("maxChildrenPerRun")) == p.maxChildrenPerRun
            && v.At("allowChildSpawn") == (if p.allowChildSpawn.Some? then Bool(p.allowChildSpawn.value) else Null)
            && v.At("cancelPropagation") == (if p.cancelPropagation.Some? then Str(p.cancelPropagation.value) else Null)
  {
    LimitFields(p);
    KeysDiffer();
    var spawn := if p.allowChildSpawn.Some? then Some(Bool(p.allowChildSpawn.value)) else None;
    PutIfAt(LimitsToValue(p), "allowChildSpawn", spawn);
    PutIfAt(PutIf(LimitsToValue(p), "allowChildSpawn", spawn), "cancelPropagation",
            if p.cancelPropagation.Some? then Some(Str(p.cancelPropagation.value)) else None);
  }

  /** Every acceptable policy decodes to its normal form, and a normal one to itself. */
  lemma PolicyRoundTrip(p: Policy)
    requires Checked(p).Ok?
    ensures PolicyFromValue(PolicyToValue(p)) == Checked(p)
    ensures p.Normal() ==> PolicyFromValue(PolicyToValue(p)) == Ok(p)
  {
    PolicyFields(p);
  }

  /** What is no object holds no policy, and fields of another type are not there. */
  lemma NothingToDecode(v: Value)
    requires v.Obj? ==>
               && !v.At("maxGlobalChildRuns").Num? && !v.At("maxChildRunsPerParent").Num?
               && !v.At("maxSpawnDepth").Num? && !v.At("maxChildrenPerRun").Num?
               && !v.At("allowChildSpawn").Bool? && !v.At("cancelPropagation").Str?
    ensures PolicyFromValue(v) == Ok(Policy(None, None, None, None, None, None))
  {
  }

  /** A policy that decoding would refuse is one that merging refuses. */
  lemma PolicyDecodesIffChecked(p: Policy)
    ensures PolicyFromValue(PolicyToValue(p)).Ok? <==> Checked(p).Ok?
  {
    PolicyFields(p);
  }
}
