/** Persistent volume handling of the Kubernetes transform: looking up a
    user-declared persistent volume by name, turning one into a
    PersistentVolumeClaim, and the pass that derives a pod volume and a claim
    for every volume mount of every container. */
module Volumes {
  import opened Wrappers
  import opened Api
  import opened AppSpec

  const DefaultVolumeSize := "100Mi"
  const DefaultVolumeType := "ReadWriteOnce"

  /** The resource-quantity parser of the Kubernetes client library. Its grammar
      is not modelled: it is any total function from text to an optional quantity. */
  type QuantityParser = string -> Option<Quantity>

  /** Errors, wrapped with the context each layer adds. */
  datatype Error = BadQuantity(size: string) | Wrapped(context: string, cause: Error)

  // ---------------------------------------------------------------------------
  // Looking up a declared persistent volume

  /** The index of the first persistent volume named `name`, or -1 when there is none. */
  function FirstIndex(pvs: seq<PersistentVolume>, name: string): (i: int)
    ensures -1 <= i < |pvs|
    ensures 0 <= i ==> pvs[i].volume.name == name
    ensures forall j :: 0 <= j < |pvs| && (i == -1 || j < i) ==> pvs[j].volume.name != name
    decreases |pvs|
  {
    if pvs == [] then -1
    else if pvs[0].volume.name == name then 0
    else
      var k := FirstIndex(pvs[1..], name);
      if k == -1 then -1 else k + 1
  }

  ghost predicate Declared(pvs: seq<PersistentVolume>, name: string) {
    exists j :: 0 <= j < |pvs| && pvs[j].volume.name == name
  }

  lemma DeclaredIffFound(pvs: seq<PersistentVolume>, name: string)
    ensures Declared(pvs, name) <==> 0 <= FirstIndex(pvs, name)
  {
  }

  /** Once `name` is found in `before`, any list that keeps the names of
      `before` as its prefix finds it at the same place. */
  lemma FirstIndexStable(before: seq<PersistentVolume>, after: seq<PersistentVolume>, name: string)
    requires |before| <= |after|
    requires forall j :: 0 <= j < |before| ==> after[j].volume.name == before[j].volume.name
    requires 0 <= FirstIndex(before, name)
    ensures FirstIndex(after, name) == FirstIndex(before, name)
  {
    var i := FirstIndex(before, name);
    assert after[i].volume.name == name;
  }

  // ---------------------------------------------------------------------------
  // Access modes

  predicate Recognised(mode: string) {
    mode == "ReadWriteOnce" || mode == "ReadOnlyMany" || mode == "ReadWriteMany"
  }

  /** The access mode a string names, as a list of zero or one modes. */
  function ModeFor(mode: string): seq<AccessMode> {
    if mode == "ReadWriteOnce" then [ReadWriteOnce]
    else if mode == "ReadOnlyMany" then [ReadOnlyMany]
    else if mode == "ReadWriteMany" then [ReadWriteMany]
    else []
  }

  function ModeName(m: AccessMode): string {
    match m
    case ReadWriteOnce => "ReadWriteOnce"
    case ReadOnlyMany => "ReadOnlyMany"
    case ReadWriteMany => "ReadWriteMany"
  }

  function ModeNames(ms: seq<AccessMode>): seq<string> {
    seq(|ms|, i requires 0 <= i < |ms| => ModeName(ms[i]))
  }

  /** The access modes the claim-building loop collects from the strings of a
      persistent volume, unrecognised strings skipped. */
  function AccessModesOf(modes: seq<string>): seq<AccessMode>
    decreases |modes|
  {
    if modes == [] then []
    else AccessModesOf(modes[..|modes| - 1]) + ModeFor(modes[|modes| - 1])
  }

  /** Reference definition: the recognised strings, in their original order. */
  function RecognisedNames(modes: seq<string>): (r: seq<string>)
    ensures forall s :: s in r <==> s in modes && Recognised(s)
    ensures r == [] <==> forall s :: s in modes ==> !Recognised(s)
    decreases |modes|
  {
    if modes == [] then []
    else
      var last := modes[|modes| - 1];
      assert modes == modes[..|modes| - 1] + [last];
      RecognisedNames(modes[..|modes| - 1]) + (if Recognised(last) then [last] else [])
  }

  /** The collected access modes, written back as strings, are exactly the
      recognised input strings in their original order. */
  lemma {:induction false} AccessModesAreRecognisedNames(modes: seq<string>)
    ensures ModeNames(AccessModesOf(modes)) == RecognisedNames(modes)
    decreases |modes|
  {
    if modes != [] {
      var front, last := modes[..|modes| - 1], modes[|modes| - 1];
      AccessModesAreRecognisedNames(front);
      ModeNamesAppend(AccessModesOf(front), ModeFor(last));
      ModeNameOf(last);
    }
  }

  lemma ModeNamesAppend(a: seq<AccessMode>, b: seq<AccessMode>)
    ensures ModeNames(a + b) == ModeNames(a) + ModeNames(b)
  {
  }

  lemma ModeNameOf(mode: string)
    ensures ModeNames(ModeFor(mode)) == if Recognised(mode) then [mode] else []
  {
  }

  // ---------------------------------------------------------------------------
  // One persistent volume to one claim

  function SizeDefaulted(v: PersistentVolume): PersistentVolume {
    if v.size == "" then v.(size := DefaultVolumeSize) else v
  }

  /** What building a claim from a persistent volume yields: the volume with its
      size defaulted (the caller's copy is updated) and either the claim or the
      size parse error. */
  function ClaimFor(v: PersistentVolume, parse: QuantityParser): (out: (PersistentVolume, Result<Object, Error>))
    ensures out.0.volume == v.volume && out.0.accessModes == v.accessModes
    ensures out.0.size == if v.size == "" then DefaultVolumeSize else v.size
    ensures out.1.Failure? <==> parse(out.0.size).None?
    ensures out.1.Failure? ==> out.1.error == Wrapped("could not read volume size", BadQuantity(out.0.size))
    ensures out.1.Success? ==>
              && out.1.value.PersistentVolumeClaim?
              && out.1.value.typeMeta == Unstamped
              && out.1.value.meta == ObjectMeta(v.volume.name, None)
              && parse(out.0.size) == Some(out.1.value.claimSpec.storage)
    ensures out.1.Success? && v.accessModes == [] ==> out.1.value.claimSpec.accessModes == [ReadWriteOnce]
    ensures out.1.Success? && v.accessModes != [] ==>
              ModeNames(out.1.value.claimSpec.accessModes) == RecognisedNames(v.accessModes)
  {
    var sized := SizeDefaulted(v);
    match parse(sized.size)
    case None => (sized, Failure(Wrapped("could not read volume size", BadQuantity(sized.size))))
    case Some(q) =>
      AccessModesAreRecognisedNames(v.accessModes);
      var modes := if |v.accessModes| == 0 then [ReadWriteOnce] else AccessModesOf(v.accessModes);
      (sized, Success(PersistentVolumeClaim(Unstamped, ObjectMeta(v.volume.name, None), ClaimSpec(modes, q))))
  }

  /** Builds the claim for persistent volume `v`; `sized` is `v` as the pointer
      write leaves it. */
  method CreatePVC(v: PersistentVolume, parse: QuantityParser) returns (sized: PersistentVolume, claim: Result<Object, Error>)
    ensures (sized, claim) == ClaimFor(v, parse)
  {
    sized := v;
    if sized.size == "" {
      sized := sized.(size := DefaultVolumeSize);
    }
    var size := parse(sized.size);
    if size.None? {
      return sized, Failure(Wrapped("could not read volume size", BadQuantity(sized.size)));
    }
    var modes: seq<AccessMode> := [];
    var i := 0;
    while i < |v.accessModes|
      invariant 0 <= i <= |v.accessModes|
      invariant modes == AccessModesOf(v.accessModes[..i])
    {
      var mode := v.accessModes[i];
      if mode == "ReadWriteOnce" {
        modes := modes + [ReadWriteOnce];
      } else if mode == "ReadOnlyMany" {
        modes := modes + [ReadOnlyMany];
      } else if mode == "ReadWriteMany" {
        modes := modes + [ReadWriteMany];
      }
      assert v.accessModes[..i + 1][..i] == v.accessModes[..i];
      i := i + 1;
    }
    assert v.accessModes[..i] == v.accessModes;
    if |v.accessModes| == 0 {
      modes := [ReadWriteOnce];
    }
    claim := Success(PersistentVolumeClaim(Unstamped, ObjectMeta(v.volume.name, None), ClaimSpec(modes, size.value)));
  }

  // ---------------------------------------------------------------------------
  // Deriving pod volumes and claims from volume mounts

  /** The pod volume generated for a mount: same name, bound to a claim of that name. */
  function ClaimVolume(name: string): Volume {
    Volume(name, ClaimSource(name))
  }

  /** The persistent volume appended for a mount nobody declared. */
  function DefaultVolume(name: string): PersistentVolume {
    PersistentVolume(ClaimVolume(name), DefaultVolumeSize, [DefaultVolumeType])
  }

  /** Every volume mount, container by container, each container's in order. */
  function Mounts(cs: seq<Container>): seq<VolumeMount>
    decreases |cs|
  {
    if cs == [] then [] else Mounts(cs[..|cs| - 1]) + cs[|cs| - 1].volumeMounts
  }

  function ClaimVolumes(ms: seq<VolumeMount>): seq<Volume> {
    seq(|ms|, k requires 0 <= k < |ms| => ClaimVolume(ms[k].name))
  }

  /** The state the mount loop threads: the pod volumes and persistent volumes
      of the application, the claims so far, and the error that stopped it. */
  datatype Derivation = Derivation(volumes: seq<Volume>, persistentVolumes: seq<PersistentVolume>, claims: seq<Object>, failure: Option<Error>)

  /** One iteration of the mount loop. */
  function MountStep(d: Derivation, m: VolumeMount, parse: QuantityParser): Derivation {
    var volumes := d.volumes + [ClaimVolume(m.name)];
    var i := FirstIndex(d.persistentVolumes, m.name);
    var out := if 0 <= i then ClaimFor(d.persistentVolumes[i], parse) else ClaimFor(DefaultVolume(m.name), parse);
    var pvs := if 0 <= i then d.persistentVolumes[i := out.0] else d.persistentVolumes + [DefaultVolume(m.name)];
    match out.1
    case Success(c) => Derivation(volumes, pvs, d.claims + [c], None)
    case Failure(e) => Derivation(volumes, pvs, d.claims, Some(Wrapped("cannot create pvc", e)))
  }

  /** The claims built so far only ride along through a step. */
  lemma MountStepClaims(d: Derivation, m: VolumeMount, parse: QuantityParser)
    ensures var e := MountStep(d.(claims := []), m, parse);
            MountStep(d, m, parse) == e.(claims := d.claims + e.claims)
  {
  }

  /** The mount loop over `ms`, stopping at the first error. */
  function Derive(ms: seq<VolumeMount>, start: Derivation, parse: QuantityParser): Derivation
    decreases |ms|
  {
    if ms == [] then start
    else
      var d := Derive(ms[..|ms| - 1], start, parse);
      if d.failure.Some? then d else MountStep(d, ms[|ms| - 1], parse)
  }

  lemma DeriveSnoc(ms: seq<VolumeMount>, m: VolumeMount, start: Derivation, parse: QuantityParser)
    ensures Derive(ms + [m], start, parse) ==
              var d := Derive(ms, start, parse);
              if d.failure.Some? then d else MountStep(d, m, parse)
  {
    assert (ms + [m])[..|ms|] == ms;
  }

  /** One more mount of a container continues the derivation by one step. */
  lemma DeriveNextMount(done: seq<VolumeMount>, mounts: seq<VolumeMount>, i: nat, start: Derivation, parse: QuantityParser)
    requires i < |mounts|
    ensures Derive(done + mounts[..i + 1], start, parse) ==
              var d := Derive(done + mounts[..i], start, parse);
              if d.failure.Some? then d else MountStep(d, mounts[i], parse)
  {
    assert done + mounts[..i + 1] == (done + mounts[..i]) + [mounts[i]];
    DeriveSnoc(done + mounts[..i], mounts[i], start, parse);
  }

  /** The ends of a container's mount loop. */
  lemma MountsBounds(done: seq<VolumeMount>, mounts: seq<VolumeMount>)
    ensures done + mounts[..0] == done
    ensures done + mounts[..|mounts|] == done + mounts
  {
    assert mounts[..0] == [];
    assert mounts[..|mounts|] == mounts;
  }

  /** After an error the remaining mounts change nothing. */
  lemma {:induction false} DeriveStopsAtFailure(done: seq<VolumeMount>, ms: seq<VolumeMount>, start: Derivation, parse: QuantityParser)
    requires done <= ms
    requires Derive(done, start, parse).failure.Some?
    ensures Derive(ms, start, parse) == Derive(done, start, parse)
    decreases |ms|
  {
    if |ms| > |done| {
      var front := ms[..|ms| - 1];
      assert done <= front;
      DeriveStopsAtFailure(done, front, start, parse);
    } else {
      assert done == ms;
    }
  }

  lemma MountsNext(cs: seq<Container>, k: nat)
    requires k < |cs|
    ensures Mounts(cs[..k + 1]) == Mounts(cs[..k]) + cs[k].volumeMounts
  {
    assert cs[..k + 1][..k] == cs[..k];
  }

  lemma {:induction false} MountsPrefix(cs: seq<Container>, k: nat)
    requires k <= |cs|
    ensures Mounts(cs[..k]) <= Mounts(cs)
    decreases |cs|
  {
    if k < |cs| {
      var front := cs[..|cs| - 1];
      assert front[..k] == cs[..k];
      MountsPrefix(front, k);
    } else {
      assert cs[..k] == cs;
    }
  }

  // ---------------------------------------------------------------------------
  // What a successful derivation leaves behind

  /** Each original entry is kept, or kept with its empty size set to the default. */
  ghost predicate Refines(before: seq<PersistentVolume>, after: seq<PersistentVolume>) {
    && |before| <= |after|
    && forall j :: 0 <= j < |before| ==> after[j] == before[j] || after[j] == SizeDefaulted(before[j])
  }

  /** Every appended entry is a default entry whose name no earlier entry has. */
  ghost predicate AppendedDefaults(before: seq<PersistentVolume>, after: seq<PersistentVolume>) {
    && (forall j :: |before| <= j < |after| ==> after[j] == DefaultVolume(after[j].volume.name))
    && (forall i, j :: 0 <= i < j && |before| <= j < |after| ==> after[i].volume.name != after[j].volume.name)
  }

  /** The state after the mounts `ms` were all processed without error, starting
      from `start` with no claims. */
  ghost predicate Derived(start: Derivation, d: Derivation, ms: seq<VolumeMount>, parse: QuantityParser) {
    && d.failure.None?
    && d.volumes == start.volumes + ClaimVolumes(ms)
    && Refines(start.persistentVolumes, d.persistentVolumes)
    && AppendedDefaults(start.persistentVolumes, d.persistentVolumes)
    && AppendedFromMounts(start.persistentVolumes, d.persistentVolumes, ms)
    && ClaimsMatchMounts(d.persistentVolumes, d.claims, ms, parse)
  }

  /** Every appended entry is named after one of the mounts. */
  ghost predicate AppendedFromMounts(before: seq<PersistentVolume>, after: seq<PersistentVolume>, ms: seq<VolumeMount>) {
    forall j :: |before| <= j < |after| ==> MountNamed(ms, after[j].volume.name)
  }

  ghost predicate MountNamed(ms: seq<VolumeMount>, name: string) {
    exists k :: 0 <= k < |ms| && ms[k].name == name
  }

  /** Claim `k` is the claim built from the entry mount `k` resolves to. */
  ghost predicate ClaimsMatchMounts(pvs: seq<PersistentVolume>, claims: seq<Object>, ms: seq<VolumeMount>, parse: QuantityParser) {
    && |claims| == |ms|
    && forall k :: 0 <= k < |ms| ==>
          && 0 <= FirstIndex(pvs, ms[k].name)
          && ClaimFor(pvs[FirstIndex(pvs, ms[k].name)], parse).1 == Success(claims[k])
  }

  lemma ClaimIgnoresDefaultedSize(v: PersistentVolume, parse: QuantityParser)
    ensures ClaimFor(SizeDefaulted(v), parse).1 == ClaimFor(v, parse).1
  {
  }

  /** The persistent volumes after one mount: the entry found gets its size
      defaulted, or a default entry is appended. */
  function StepVolumes(pvs: seq<PersistentVolume>, name: string): seq<PersistentVolume> {
    var i := FirstIndex(pvs, name);
    if 0 <= i then pvs[i := SizeDefaulted(pvs[i])] else pvs + [DefaultVolume(name)]
  }

  lemma MountStepShape(d: Derivation, m: VolumeMount, parse: QuantityParser)
    requires MountStep(d, m, parse).failure.None?
    ensures var d' := MountStep(d, m, parse);
            var i := FirstIndex(d.persistentVolumes, m.name);
            && d'.volumes == d.volumes + [ClaimVolume(m.name)]
            && d'.persistentVolumes == StepVolumes(d.persistentVolumes, m.name)
            && var out := ClaimFor(if 0 <= i then d.persistentVolumes[i] else DefaultVolume(m.name), parse).1;
               out.Success? && d'.claims == d.claims + [out.value]
  {
  }

  lemma ClaimVolumesSnoc(ms: seq<VolumeMount>, m: VolumeMount)
    ensures ClaimVolumes(ms + [m]) == ClaimVolumes(ms) + [ClaimVolume(m.name)]
  {
  }

  lemma StepVolumesNames(pvs: seq<PersistentVolume>, name: string)
    ensures || |pvs| == |StepVolumes(pvs, name)|
            || (|StepVolumes(pvs, name)| == |pvs| + 1 && StepVolumes(pvs, name)[|pvs|] == DefaultVolume(name))
    ensures forall j :: 0 <= j < |pvs| ==> StepVolumes(pvs, name)[j].volume.name == pvs[j].volume.name
    ensures 0 <= FirstIndex(StepVolumes(pvs, name), name)
  {
    var pvs' := StepVolumes(pvs, name);
    if FirstIndex(pvs, name) < 0 {
      assert pvs'[|pvs|].volume.name == name;
      assert forall j :: 0 <= j < |pvs| ==> pvs'[j] == pvs[j];
    }
  }

  lemma StepVolumesRefines(before: seq<PersistentVolume>, pvs: seq<PersistentVolume>, name: string)
    requires Refines(before, pvs) && AppendedDefaults(before, pvs)
    ensures Refines(before, StepVolumes(pvs, name)) && AppendedDefaults(before, StepVolumes(pvs, name))
  {
    var pvs' := StepVolumes(pvs, name);
    var i := FirstIndex(pvs, name);
    StepVolumesNames(pvs, name);
    forall j | 0 <= j < |before|
      ensures pvs'[j] == before[j] || pvs'[j] == SizeDefaulted(before[j])
    {
      if j == i {
        assert pvs'[j] == SizeDefaulted(pvs[j]);
      }
    }
    if i < 0 {
      assert forall j :: 0 <= j < |pvs| ==> pvs'[j] == pvs[j];
    }
  }

  lemma StepClaimsKept(pvs: seq<PersistentVolume>, name: string, other: string, parse: QuantityParser)
    requires 0 <= FirstIndex(pvs, other)
    ensures FirstIndex(StepVolumes(pvs, name), other) == FirstIndex(pvs, other)
    ensures ClaimFor(StepVolumes(pvs, name)[FirstIndex(pvs, other)], parse).1 == ClaimFor(pvs[FirstIndex(pvs, other)], parse).1
  {
    StepVolumesNames(pvs, name);
    FirstIndexStable(pvs, StepVolumes(pvs, name), other);
    var i := FirstIndex(pvs, other);
    if i == FirstIndex(pvs, name) {
      ClaimIgnoresDefaultedSize(pvs[i], parse);
    }
  }

  lemma StepClaimNew(pvs: seq<PersistentVolume>, name: string, parse: QuantityParser)
    ensures 0 <= FirstIndex(StepVolumes(pvs, name), name)
    ensures var i := FirstIndex(pvs, name);
            var pvs' := StepVolumes(pvs, name);
            ClaimFor(pvs'[FirstIndex(pvs', name)], parse).1 ==
              ClaimFor(if 0 <= i then pvs[i] else DefaultVolume(name), parse).1
  {
    var i := FirstIndex(pvs, name);
    StepVolumesNames(pvs, name);
    if 0 <= i {
      StepClaimsKept(pvs, name, name, parse);
    } else {
      var pvs' := StepVolumes(pvs, name);
      assert pvs'[|pvs|].volume.name == name;
      assert forall j :: 0 <= j < |pvs| ==> pvs'[j] == pvs[j];
      assert FirstIndex(pvs', name) == |pvs|;
    }
  }

  lemma StepKeepsClaims(pvs: seq<PersistentVolume>, claims: seq<Object>, ms: seq<VolumeMount>, m: VolumeMount, c: Object, parse: QuantityParser)
    requires ClaimsMatchMounts(pvs, claims, ms, parse)
    requires Success(c) == ClaimFor(if 0 <= FirstIndex(pvs, m.name) then pvs[FirstIndex(pvs, m.name)] else DefaultVolume(m.name), parse).1
    ensures ClaimsMatchMounts(StepVolumes(pvs, m.name), claims + [c], ms + [m], parse)
  {
    var pvs', ms', claims' := StepVolumes(pvs, m.name), ms + [m], claims + [c];
    forall k | 0 <= k < |ms'|
      ensures 0 <= FirstIndex(pvs', ms'[k].name)
      ensures ClaimFor(pvs'[FirstIndex(pvs', ms'[k].name)], parse).1 == Success(claims'[k])
    {
      if k < |ms| {
        assert ms'[k] == ms[k];
        assert claims'[k] == claims[k];
        StepClaimsKept(pvs, m.name, ms[k].name, parse);
      } else {
        StepClaimNew(pvs, m.name, parse);
      }
    }
  }

  lemma StepKeepsOrigins(before: seq<PersistentVolume>, pvs: seq<PersistentVolume>, ms: seq<VolumeMount>, m: VolumeMount)
    requires |before| <= |pvs|
    requires AppendedFromMounts(before, pvs, ms)
    ensures AppendedFromMounts(before, StepVolumes(pvs, m.name), ms + [m])
  {
    var pvs', ms' := StepVolumes(pvs, m.name), ms + [m];
    StepVolumesNames(pvs, m.name);
    forall j | |before| <= j < |pvs'|
      ensures MountNamed(ms', pvs'[j].volume.name)
    {
      if j < |pvs| {
        var k :| 0 <= k < |ms| && ms[k].name == pvs[j].volume.name;
        assert ms'[k] == ms[k];
        assert ms'[k].name == pvs'[j].volume.name;
      } else {
        assert j == |pvs| && pvs'[j] == DefaultVolume(m.name);
        assert ms'[|ms|] == m;
        assert ms'[|ms|].name == pvs'[j].volume.name;
      }
    }
  }

  lemma MountStepKeepsDerived(start: Derivation, d: Derivation, ms: seq<VolumeMount>, m: VolumeMount, parse: QuantityParser)
    requires Derived(start, d, ms, parse)
    requires MountStep(d, m, parse).failure.None?
    ensures Derived(start, MountStep(d, m, parse), ms + [m], parse)
  {
    var pvs := d.persistentVolumes;
    var i := FirstIndex(pvs, m.name);
    var out := ClaimFor(if 0 <= i then pvs[i] else DefaultVolume(m.name), parse).1;
    MountStepShape(d, m, parse);
    ClaimVolumesSnoc(ms, m);
    StepVolumesRefines(start.persistentVolumes, pvs, m.name);
    StepKeepsClaims(pvs, d.claims, ms, m, out.value, parse);
    StepKeepsOrigins(start.persistentVolumes, pvs, ms, m);
  }

  /** A derivation that ends without error satisfies `Derived`. */
  lemma {:induction false} DeriveSucceeds(ms: seq<VolumeMount>, start: Derivation, parse: QuantityParser)
    requires start.failure.None? && start.claims == []
    requires Derive(ms, start, parse).failure.None?
    ensures Derived(start, Derive(ms, start, parse), ms, parse)
    decreases |ms|
  {
    if ms == [] {
      assert ClaimVolumes(ms) == [];
    } else {
      var front, m := ms[..|ms| - 1], ms[|ms| - 1];
      var d := Derive(front, start, parse);
      assert front + [m] == ms;
      DeriveSnoc(front, m, start, parse);
      assert d.failure.None?;
      assert Derive(ms, start, parse) == MountStep(d, m, parse);
      DeriveSucceeds(front, start, parse);
      MountStepKeepsDerived(start, d, front, m, parse);
    }
  }

  // ---------------------------------------------------------------------------
  // When the derivation fails

  /** The entry `name` resolves to has a non-empty size the parser rejects. */
  ghost predicate Unparsable(pvs: seq<PersistentVolume>, name: string, parse: QuantityParser) {
    var i := FirstIndex(pvs, name);
    0 <= i && pvs[i].size != "" && parse(pvs[i].size).None?
  }

  lemma UnparsableStable(before: seq<PersistentVolume>, after: seq<PersistentVolume>, name: string, parse: QuantityParser)
    requires parse(DefaultVolumeSize).Some?
    requires Refines(before, after) && AppendedDefaults(before, after)
    ensures Unparsable(after, name, parse) <==> Unparsable(before, name, parse)
  {
    var i := FirstIndex(before, name);
    if 0 <= i {
      FirstIndexStable(before, after, name);
    } else {
      var i' := FirstIndex(after, name);
      if 0 <= i' {
        assert forall j :: 0 <= j < |before| ==> after[j].volume.name != name;
      }
    }
  }

  lemma StepFailsIffUnparsable(d: Derivation, m: VolumeMount, parse: QuantityParser)
    requires parse(DefaultVolumeSize).Some?
    ensures MountStep(d, m, parse).failure.Some? <==> Unparsable(d.persistentVolumes, m.name, parse)
  {
  }

  /** The mount loop fails exactly when some mount resolves to a declared
      persistent volume whose non-empty size does not parse. */
  lemma {:induction false} DeriveFailsIffUnparsable(ms: seq<VolumeMount>, start: Derivation, parse: QuantityParser)
    requires start.failure.None? && start.claims == []
    requires parse(DefaultVolumeSize).Some?
    ensures Derive(ms, start, parse).failure.Some? <==>
              exists k :: 0 <= k < |ms| && Unparsable(start.persistentVolumes, ms[k].name, parse)
    decreases |ms|
  {
    if ms != [] {
      var front, m := ms[..|ms| - 1], ms[|ms| - 1];
      assert front + [m] == ms;
      DeriveFailsIffUnparsable(front, start, parse);
      var d := Derive(front, start, parse);
      if d.failure.Some? {
        var k :| 0 <= k < |front| && Unparsable(start.persistentVolumes, front[k].name, parse);
        assert ms[k] == front[k];
      } else {
        DeriveSucceeds(front, start, parse);
        StepFailsIffUnparsable(d, m, parse);
        UnparsableStable(start.persistentVolumes, d.persistentVolumes, m.name, parse);
        if !Unparsable(start.persistentVolumes, m.name, parse) {
          forall k | 0 <= k < |ms| ensures !Unparsable(start.persistentVolumes, ms[k].name, parse) {
            if k < |front| {
              assert ms[k] == front[k];
            }
          }
        }
      }
    }
  }
}
