/** From pod annotations to the query for offers: what a numeric field of the query means. */
module Query {
  import opened Wrappers

  /** The numeric fields; DLPerf has a prefix of its own, DiskSpace has no bounds of its own. */
  datatype Field =
    | GPUCount | VRAM | VRAMTotal | VRAMBandwidth | TFLOPS | CUDA | CPU | RAM | Price | UploadSpeed | DownloadSpeed
    | DLPerf | DiskSpace

  /** What an annotation key stands for: the bare setting, or the setting with -min or -max. */
  datatype Setting = Exact(field: Field) | Min(field: Field) | Max(field: Field)

  /** strconv.Atoi for counts, strconv.ParseFloat for the rest. */
  type Parser = (Field, string) -> Option<real>

  type Spec = map<Setting, real>

  datatype Filter = Filter(eq: Option<real>, gte: Option<real>, lte: Option<real>)

  // ---- annotation keys ----

  const SHARED_PREFIX := "anex.sh/"
  const VASTAI_PREFIX := "vastai.anex.sh/"

  predicate HasPrefix(s: string, prefix: string) {
    |prefix| <= |s| && s[..|prefix|] == prefix
  }

  predicate HasSuffix(s: string, suffix: string) {
    |suffix| <= |s| && s[|s| - |suffix|..] == suffix
  }

  function NameOf(f: Field): string {
    match f
    case GPUCount => "gpu-count"
    case VRAM => "vram"
    case VRAMTotal => "vram-total"
    case VRAMBandwidth => "vram-bandwidth"
    case TFLOPS => "tflops"
    case CUDA => "cuda"
    case CPU => "cpu"
    case RAM => "ram"
    case Price => "price"
    case UploadSpeed => "upload-speed"
    case DownloadSpeed => "download-speed"
    case DLPerf => "dlperf"
    case DiskSpace => "disk-space-gb"
  }

  /** The one field whose name has this length and first character, if any. */
  function Candidate(length: nat, first: char): Option<Field> {
    match length
    case 3 => if first == 'c' then Some(CPU) else Some(RAM)
    case 4 => if first == 'v' then Some(VRAM) else Some(CUDA)
    case 5 => Some(Price)
    case 6 => if first == 't' then Some(TFLOPS) else Some(DLPerf)
    case 9 => Some(GPUCount)
    case 10 => Some(VRAMTotal)
    case 12 => Some(UploadSpeed)
    case 13 => Some(DiskSpace)
    case 14 => if first == 'v' then Some(VRAMBandwidth) else Some(DownloadSpeed)
    case _ => None
  }

  function FieldNamed(name: string): Option<Field> {
    if name == "" then None
    else
      var f := Candidate(|name|, name[0]);
      if f.Some? && NameOf(f.value) == name then f else None
  }

  lemma NamesFound(f: Field)
    ensures FieldNamed(NameOf(f)) == Some(f)
  {
  }

  lemma NamesHaveNoSuffix(f: Field)
    ensures !HasSuffix(NameOf(f), "-min") && !HasSuffix(NameOf(f), "-max")
  {
    SuffixEnds(NameOf(f), "-min", 'n');
    SuffixEnds(NameOf(f), "-max", 'x');
    LastOfName(f);
  }

  lemma LastOfName(f: Field)
    ensures NameOf(f) != "" && NameOf(f)[|NameOf(f)| - 1] !in {'n', 'x'}
  {
  }

  lemma SuffixEnds(name: string, suffix: string, last: char)
    requires suffix != "" && suffix[|suffix| - 1] == last
    ensures HasSuffix(name, suffix) ==> name != "" && name[|name| - 1] == last
  {
    if HasSuffix(name, suffix) { assert name[|name| - |suffix|..][|suffix| - 1] == last; }
  }

  function SettingName(s: Setting): string {
    match s case Exact(f) => NameOf(f) case Min(f) => NameOf(f) + "-min" case Max(f) => NameOf(f) + "-max"
  }

  function SettingNamed(name: string): Option<Setting> {
    if HasSuffix(name, "-min") then
      var f := FieldNamed(name[..|name| - 4]); if f.Some? then Some(Min(f.value)) else None
    else if HasSuffix(name, "-max") then
      var f := FieldNamed(name[..|name| - 4]); if f.Some? then Some(Max(f.value)) else None
    else
      var f := FieldNamed(name); if f.Some? then Some(Exact(f.value)) else None
  }

  /** Cutting the suffix off is the inverse of putting it on. */
  lemma SettingsByName(name: string, s: Setting)
    ensures SettingNamed(name) == Some(s) <==> name == SettingName(s)
  {
    NamesFound(s.field);
    NamesHaveNoSuffix(s.field);
    var f := NameOf(s.field);
    if name == SettingName(s) && !s.Exact? {
      assert name[..|name| - 4] == f;
      assert name[|name| - 1] == if s.Min? then 'n' else 'x';
    }
    if SettingNamed(name) == Some(s) && !s.Exact? {
      assert name == name[..|name| - 4] + name[|name| - 4..];
    }
  }

  function AnnotationKey(s: Setting): string {
    (if s.field == DLPerf then VASTAI_PREFIX else SHARED_PREFIX) + SettingName(s)
  }

  /** The setting an annotation key stands for; a known name under the wrong prefix stands for none. */
  function SettingOf(key: string): Option<Setting> {
    if HasPrefix(key, SHARED_PREFIX) then
      var s := SettingNamed(key[|SHARED_PREFIX|..]); if s.Some? && s.value.field != DLPerf then s else None
    else if HasPrefix(key, VASTAI_PREFIX) then
      var s := SettingNamed(key[|VASTAI_PREFIX|..]); if s.Some? && s.value.field == DLPerf then s else None
    else None
  }

  /** A key stands for a setting exactly when it is that setting's key. */
  lemma SettingsByKey(key: string, s: Setting)
    ensures SettingOf(key) == Some(s) <==> key == AnnotationKey(s)
  {
    var prefix := if s.field == DLPerf then VASTAI_PREFIX else SHARED_PREFIX;
    assert HasPrefix(key, SHARED_PREFIX) ==> key[0] == 'a';
    assert HasPrefix(key, VASTAI_PREFIX) ==> key[0] == 'v';
    if HasPrefix(key, prefix) {
      SettingsByName(key[|prefix|..], s);
      assert key == prefix + key[|prefix|..];
    }
    if key == AnnotationKey(s) {
      assert key[..|prefix|] == prefix && key[|prefix|..] == SettingName(s);
    }
  }

  /** The annotations that are settings. */
  function Settings(annotations: map<string, string>): (settings: map<Setting, string>)
    ensures forall s :: s in settings <==> AnnotationKey(s) in annotations
    ensures forall s :: s in settings ==> settings[s] == annotations[AnnotationKey(s)]
  {
    SettingKeysThere(annotations);
    map s | s in (set k | k in annotations && SettingOf(k).Some? :: SettingOf(k).value) :: annotations[AnnotationKey(s)]
  }

  lemma SettingKeysThere(annotations: map<string, string>)
    ensures forall s :: s in (set k | k in annotations && SettingOf(k).Some? :: SettingOf(k).value)
                        <==> AnnotationKey(s) in annotations
  {
    forall s ensures s in (set k | k in annotations && SettingOf(k).Some? :: SettingOf(k).value)
                     <==> AnnotationKey(s) in annotations
    {
      SettingsByKey(AnnotationKey(s), s);
      forall k | k in annotations && SettingOf(k) == Some(s) ensures k == AnnotationKey(s) { SettingsByKey(k, s); }
    }
  }

  // ---- the specification ----

  /** Bounds of the shared fields count only when the exact annotation is absent. */
  predicate Counts(annotations: map<Setting, string>, s: Setting) {
    s.Exact? || s.field == DLPerf || (s.field != DiskSpace && Exact(s.field) !in annotations)
  }

  function ParsedAt(annotations: map<Setting, string>, parse: Parser, s: Setting): Option<real> {
    if s in annotations && Counts(annotations, s) then parse(s.field, annotations[s]) else None
  }

  function SpecOf(annotations: map<Setting, string>, parse: Parser): Spec {
    map s | s in annotations && ParsedAt(annotations, parse, s).Some? :: ParsedAt(annotations, parse, s).value
  }

  /** The keys of a map, in some order. */
  ghost predicate RangesOver(order: seq<string>, annotations: map<string, string>) {
    forall k :: k in order <==> k in annotations
  }

  /** The first pass: the settings under the shared prefix that have no suffix. */
  method CollectExact(annotations: map<string, string>, order: seq<string>) returns (exactFields: set<string>)
    requires RangesOver(order, annotations)
    ensures forall f :: f != DLPerf ==> (NameOf(f) in exactFields <==> AnnotationKey(Exact(f)) in annotations)
  {
    exactFields := {};
    for i := 0 to |order|
      invariant forall name :: name in exactFields <==> CollectedFrom(order[..i], name)
    {
      assert order[..i + 1] == order[..i] + [order[i]];
      CollectedStep(order[..i], order[i]);
      if !HasPrefix(order[i], SHARED_PREFIX) { continue; }
      var setting := order[i][|SHARED_PREFIX|..];
      if !HasSuffix(setting, "-min") && !HasSuffix(setting, "-max") {
        exactFields := exactFields + {setting};
      }
    }
    assert order[..|order|] == order;
    forall f | f != DLPerf ensures NameOf(f) in exactFields <==> AnnotationKey(Exact(f)) in annotations {
      NamesHaveNoSuffix(f);
    }
  }

  predicate CollectedFrom(keys: seq<string>, name: string) {
    SHARED_PREFIX + name in keys && !HasSuffix(name, "-min") && !HasSuffix(name, "-max")
  }

  lemma CollectedStep(keys: seq<string>, key: string)
    ensures forall name :: CollectedFrom(keys + [key], name) <==>
      CollectedFrom(keys, name) || (HasPrefix(key, SHARED_PREFIX) && name == key[|SHARED_PREFIX|..]
                                    && !HasSuffix(name, "-min") && !HasSuffix(name, "-max"))
  {
    forall name
      ensures key == SHARED_PREFIX + name <==> HasPrefix(key, SHARED_PREFIX) && name == key[|SHARED_PREFIX|..]
    {
      if HasPrefix(key, SHARED_PREFIX) { assert key == SHARED_PREFIX + key[|SHARED_PREFIX|..]; }
      if key == SHARED_PREFIX + name {
        assert key[..|SHARED_PREFIX|] == SHARED_PREFIX && key[|SHARED_PREFIX|..] == name;
      }
    }
  }

  /** Written so far: what the settings of the keys seen parse to. */
  ghost predicate WrittenFrom(shared: seq<string>, vastai: seq<string>, annotations: map<string, string>, parse: Parser,
                              out: Spec) {
    forall s: Setting :: WrittenAt(if s.field == DLPerf then vastai else shared, annotations, parse, out, s)
  }

  predicate WrittenAt(seen: seq<string>, annotations: map<string, string>, parse: Parser, out: Spec, s: Setting) {
    && (s in out <==> AnnotationKey(s) in seen && ParsedAt(Settings(annotations), parse, s).Some?)
    && (s in out ==> out[s] == ParsedAt(Settings(annotations), parse, s).value)
  }

  function Put(out: Spec, s: Option<Setting>, value: Option<real>): Spec {
    if s.Some? && value.Some? then out[s.value := value.value] else out
  }

  /** The specification after one more key, in the pass over the shared prefix or in the other one. */
  function After(annotations: map<string, string>, parse: Parser, out: Spec, key: string, vastai: bool): Spec {
    var s := SettingOf(key);
    if s.Some? && (s.value.field == DLPerf <==> vastai) then
      Put(out, s, ParsedAt(Settings(annotations), parse, s.value))
    else out
  }

  lemma AfterAt(seen: seq<string>, annotations: map<string, string>, parse: Parser, out: Spec, key: string,
                vastai: bool, s: Setting)
    requires WrittenAt(seen, annotations, parse, out, s)
    ensures WrittenAt(if s.field == DLPerf <==> vastai then seen + [key] else seen, annotations, parse,
                      After(annotations, parse, out, key, vastai), s)
  {
    SettingsByKey(key, s);
    OneMoreSeen(seen, key, AnnotationKey(s));
  }

  lemma OneMoreSeen(seen: seq<string>, key: string, k: string)
    ensures k in seen + [key] <==> k in seen || k == key
  {
  }

  lemma SharedStep(seen: seq<string>, key: string, annotations: map<string, string>, parse: Parser, out: Spec)
    requires WrittenFrom(seen, [], annotations, parse, out)
    ensures WrittenFrom(seen + [key], [], annotations, parse, After(annotations, parse, out, key, false))
  {
    forall s: Setting ensures WrittenAt(if s.field == DLPerf then [] else seen + [key], annotations, parse,
                               After(annotations, parse, out, key, false), s)
    {
      AfterAt(if s.field == DLPerf then [] else seen, annotations, parse, out, key, false, s);
    }
  }

  lemma VastaiStep(shared: seq<string>, seen: seq<string>, key: string, annotations: map<string, string>, parse: Parser,
                   out: Spec)
    requires WrittenFrom(shared, seen, annotations, parse, out)
    ensures WrittenFrom(shared, seen + [key], annotations, parse, After(annotations, parse, out, key, true))
  {
    forall s: Setting ensures WrittenAt(if s.field == DLPerf then seen + [key] else shared, annotations, parse,
                               After(annotations, parse, out, key, true), s)
    {
      AfterAt(if s.field == DLPerf then seen else shared, annotations, parse, out, key, true, s);
    }
  }

  lemma PrefixesDiffer(key: string)
    ensures !(HasPrefix(key, SHARED_PREFIX) && HasPrefix(key, VASTAI_PREFIX))
  {
    assert HasPrefix(key, SHARED_PREFIX) ==> key[0] == 'a';
    assert HasPrefix(key, VASTAI_PREFIX) ==> key[0] == 'v';
  }

  /** Whether a setting under the shared prefix is read, as the switch decides it. */
  lemma SharedCounts(annotations: map<string, string>, exactFields: set<string>, s: Setting)
    requires forall f :: f != DLPerf ==> (NameOf(f) in exactFields <==> AnnotationKey(Exact(f)) in annotations)
    requires s.field != DLPerf
    ensures Counts(Settings(annotations), s)
      <==> s.Exact? || (s.field != DiskSpace && NameOf(s.field) !in exactFields)
  {
  }

  /** Three passes over the annotations, each in an order of its own: the result does not depend on any. */
  method NewMachineSpecification(annotations: map<string, string>, parse: Parser, order1: seq<string>,
                                 order2: seq<string>, order3: seq<string>) returns (out: Spec)
    requires RangesOver(order1, annotations) && RangesOver(order2, annotations) && RangesOver(order3, annotations)
    ensures out == SpecOf(Settings(annotations), parse)
  {
    var exactFields := CollectExact(annotations, order1);
    out := map[];
    for i := 0 to |order2|
      invariant WrittenFrom(order2[..i], [], annotations, parse, out)
    {
      var key := order2[i];
      assert order2[..i + 1] == order2[..i] + [key];
      SharedStep(order2[..i], key, annotations, parse, out);
      if !HasPrefix(key, SHARED_PREFIX) { continue; }
      var s := SettingNamed(key[|SHARED_PREFIX|..]);
      if s.None? || s.value.field == DLPerf { continue; }
      SettingsByKey(key, s.value);
      SharedCounts(annotations, exactFields, s.value);
      if s.value.Exact? || (s.value.field != DiskSpace && NameOf(s.value.field) !in exactFields) {
        out := Put(out, s, parse(s.value.field, annotations[key]));
      }
    }
    assert order2[..|order2|] == order2;
    for i := 0 to |order3|
      invariant WrittenFrom(order2, order3[..i], annotations, parse, out)
    {
      var key := order3[i];
      assert order3[..i + 1] == order3[..i] + [key];
      VastaiStep(order2, order3[..i], key, annotations, parse, out);
      PrefixesDiffer(key);
      if !HasPrefix(key, VASTAI_PREFIX) { continue; }
      var s := SettingNamed(key[|VASTAI_PREFIX|..]);
      if s.None? || s.value.field != DLPerf { continue; }
      SettingsByKey(key, s.value);
      out := Put(out, s, parse(DLPerf, annotations[key]));
    }
    assert order3[..|order3|] == order3;
    AllWritten(order2, order3, annotations, parse, out);
  }

  lemma AllWritten(shared: seq<string>, vastai: seq<string>, annotations: map<string, string>, parse: Parser, out: Spec)
    requires RangesOver(shared, annotations) && RangesOver(vastai, annotations)
    requires WrittenFrom(shared, vastai, annotations, parse, out)
    ensures out == SpecOf(Settings(annotations), parse)
  {
    assert forall s: Setting :: WrittenAt(if s.field == DLPerf then vastai else shared, annotations, parse, out, s);
  }

  // ---- the query ----

  function At(spec: Spec, s: Setting): Option<real> {
    if s in spec then Some(spec[s]) else None
  }

  function FieldFilter(spec: Spec, f: Field): Option<Filter> {
    if f == DiskSpace then
      if Exact(f) in spec then Some(Filter(None, Some(spec[Exact(f)]), None)) else None
    else if Exact(f) in spec then Some(Filter(Some(spec[Exact(f)]), None, None))
    else if Min(f) in spec || Max(f) in spec then Some(Filter(None, At(spec, Min(f)), At(spec, Max(f))))
    else None
  }

  const FIELDS: seq<Field> :=
    [GPUCount, VRAM, VRAMTotal, VRAMBandwidth, TFLOPS, CUDA, CPU, RAM, Price, DiskSpace, DLPerf, UploadSpeed,
     DownloadSpeed]

  method BuildInstanceFilters(spec: Spec) returns (filters: map<Field, Filter>)
    ensures forall f :: f in filters <==> FieldFilter(spec, f).Some?
    ensures forall f :: f in filters ==> Some(filters[f]) == FieldFilter(spec, f)
  {
    filters := map[];
    for i := 0 to |FIELDS|
      invariant forall f :: f in filters <==> f in FIELDS[..i] && FieldFilter(spec, f).Some?
      invariant forall f :: f in filters ==> Some(filters[f]) == FieldFilter(spec, f)
    {
      var f := FIELDS[i];
      assert FIELDS[..i + 1] == FIELDS[..i] + [f];
      if f == DiskSpace {
        if Exact(f) in spec { filters := filters[f := Filter(None, Some(spec[Exact(f)]), None)]; }
      } else if Exact(f) in spec {
        filters := filters[f := Filter(Some(spec[Exact(f)]), None, None)];
      } else if Min(f) in spec && Max(f) in spec {
        filters := filters[f := Filter(None, Some(spec[Min(f)]), Some(spec[Max(f)]))];
      } else if Min(f) in spec {
        filters := filters[f := Filter(None, Some(spec[Min(f)]), None)];
      } else if Max(f) in spec {
        filters := filters[f := Filter(None, None, Some(spec[Max(f)]))];
      }
    }
    assert FIELDS[..|FIELDS|] == FIELDS;
    forall f ensures f in FIELDS { FieldListed(f); }
  }

  lemma FieldListed(f: Field)
    ensures f in FIELDS
  {
    var i := match f
      case GPUCount => 0 case VRAM => 1 case VRAMTotal => 2 case VRAMBandwidth => 3 case TFLOPS => 4 case CUDA => 5
      case CPU => 6 case RAM => 7 case Price => 8 case DiskSpace => 9 case DLPerf => 10 case UploadSpeed => 11
      case DownloadSpeed => 12;
    assert FIELDS[i] == f;
  }

  // ---- what it means ----

  predicate Satisfies(filter: Option<Filter>, v: real) {
    filter.Some? ==>
      && (filter.value.eq.Some? ==> v == filter.value.eq.value)
      && (filter.value.gte.Some? ==> v >= filter.value.gte.value)
      && (filter.value.lte.Some? ==> v <= filter.value.lte.value)
  }

  /** What the annotation says of a value, if it is present and parses. */
  predicate Holds(annotations: map<Setting, string>, parse: Parser, s: Setting, v: real) {
    s in annotations && parse(s.field, annotations[s]).Some? ==>
      var x := parse(s.field, annotations[s]).value;
      match s case Exact(f) => (if f == DiskSpace then v >= x else v == x) case Min(_) => v >= x case Max(_) => v <= x
  }

  /** The exact annotation rules out the bounds: for a shared field when it is present, even if it does not parse
      and so asks for nothing; for DLPerf only when it parses. */
  predicate Overrides(annotations: map<Setting, string>, parse: Parser, f: Field) {
    || f == DiskSpace
    || (Exact(f) in annotations && (f != DLPerf || parse(f, annotations[Exact(f)]).Some?))
  }

  /** An offer's value passes its field of the query exactly when it meets the annotations that count. */
  lemma QueryMeansAnnotations(annotations: map<Setting, string>, parse: Parser, f: Field, v: real)
    ensures Satisfies(FieldFilter(SpecOf(annotations, parse), f), v) <==>
      && Holds(annotations, parse, Exact(f), v)
      && (!Overrides(annotations, parse, f) ==>
          Holds(annotations, parse, Min(f), v) && Holds(annotations, parse, Max(f), v))
  {
    var spec := SpecOf(annotations, parse);
    assert forall s :: At(spec, s) == ParsedAt(annotations, parse, s);
  }
}
