/**
  The ChronoBloom acquisition input: it reads a key=value configuration,
  parses the species, phenophase and state filters, builds a batch of five
  synthetic phenology observations and writes them, one JSON line each, to
  standard output. When parsing the filters fails the run writes exactly one
  fixed test event instead.

  The random choices are an injected chooser, the clock an injected function,
  and standard output a sink object holding the emitted lines.
 */
module ChronoBloomInput {
  import opened Wrappers
  import opened PyStrings

  // ---------------------------------------------------------------------------
  // Data model
  // ---------------------------------------------------------------------------

  /** One reading of the clock: int(time.time()), today's date and datetime.now().isoformat(). */
  datatype Instant = Instant(epochSeconds: int, date: string, isoTimestamp: string)

  /** The random draws made while building one observation. */
  datatype Draw = SpeciesDraw | PhenophaseDraw | StateDraw | LatitudeDraw | LongitudeDraw | StatusDraw | IntensityDraw

  /** An observation event; latitude and longitude are in millionths of a degree. */
  datatype Observation = Observation(
    observationId: string,
    speciesId: int,
    speciesName: string,
    phenophaseId: int,
    phenophaseName: string,
    observationDate: string,
    observationDateTime: int,
    latitudeMicro: int,
    longitudeMicro: int,
    state: string,
    siteName: string,
    phenophaseStatus: int,
    intensityValue: string,
    dataSource: string,
    collectionTimestamp: string)

  /** The parsed filters handed to the data fetch. */
  datatype Filters = Filters(speciesIds: seq<int>, phenophaseIds: seq<int>, states: seq<string>)

  const BatchSize: nat := 5
  const DefaultSpeciesId: int := 3
  const DefaultPhenophaseId: int := 373
  const DefaultState: string := "CA"

  const SpeciesNames: map<int, string> := map[3 := "Red maple", 35 := "American robin", 52 := "Lilac"]
  const PhenophaseNames: map<int, string> := map[373 := "First leaf", 501 := "First flower", 390 := "Full bloom"]
  const Intensities: seq<string> := ["", "Low", "Medium", "High"]

  // ---------------------------------------------------------------------------
  // Configuration
  // ---------------------------------------------------------------------------

  /** The configuration main starts from before the command line is applied. */
  const DefaultConfig: map<string, string> :=
    map["species_ids" := "3,35,52", "phenophase_ids" := "373,501,390", "states" := "CA,NY,TX", "api_key" := ""]

  /** dict.get(key, default). */
  function Get(config: map<string, string>, key: string, default: string): string
  {
    if key in config then config[key] else default
  }

  /** The species id list run() reads, "3,35,52" when the key is absent. */
  function SpeciesSetting(config: map<string, string>): string
  {
    Get(config, "species_ids", "3,35,52")
  }

  /** The phenophase id list run() reads, "373,501,390" when the key is absent. */
  function PhenophaseSetting(config: map<string, string>): string
  {
    Get(config, "phenophase_ids", "373,501,390")
  }

  /** The state list run() reads, empty when the key is absent. */
  function StatesSetting(config: map<string, string>): string
  {
    Get(config, "states", "")
  }

  /** A `key=value` argument split at its first '='; None for an argument without '='. */
  function Assignment(arg: string): (r: Option<(string, string)>)
    ensures r.None? <==> '=' !in arg
    ensures r.Some? ==> '=' !in r.value.0 && arg == r.value.0 + "=" + r.value.1
  {
    var i := Find(arg, '=');
    if i == -1 then None
    else
      assert arg == arg[..i] + "=" + arg[i + 1..];
      Some((arg[..i], arg[i + 1..]))
  }

  /** The configuration after applying the arguments in order. */
  function Override(config: map<string, string>, args: seq<string>): (r: map<string, string>)
    ensures forall key <- r :: key in config || exists j :: 0 <= j < |args| && Assigns(args[j], key)
  {
    if args == [] then config
    else
      var before := Override(config, args[..|args| - 1]);
      match Assignment(args[|args| - 1])
      case None => before
      case Some((key, value)) => before[key := value]
  }

  predicate Assigns(arg: string, key: string)
  {
    Assignment(arg).Some? && Assignment(arg).value.0 == key
  }

  /** The last argument that assigns a key decides its value; later values may contain '='. */
  lemma {:induction false} OverrideLastWins(config: map<string, string>, args: seq<string>, j: nat, key: string)
    requires j < |args| && Assigns(args[j], key)
    requires forall k :: j < k < |args| ==> !Assigns(args[k], key)
    ensures key in Override(config, args)
    ensures Override(config, args)[key] == Assignment(args[j]).value.1
  {
    if j < |args| - 1 {
      OverrideLastWins(config, args[..|args| - 1], j, key);
      assert !Assigns(args[|args| - 1], key);
    }
  }

  /** A key no argument assigns keeps its starting value, or stays absent. */
  lemma {:induction false} OverrideUnassigned(config: map<string, string>, args: seq<string>, key: string)
    requires forall k :: 0 <= k < |args| ==> !Assigns(args[k], key)
    ensures key in Override(config, args) <==> key in config
    ensures key in config ==> Override(config, args)[key] == config[key]
  {
    if args != [] {
      OverrideUnassigned(config, args[..|args| - 1], key);
      assert !Assigns(args[|args| - 1], key);
    }
  }

  /** Every starting key survives, and every assigned key (known or not) is stored. */
  lemma {:induction false} OverrideKeys(config: map<string, string>, args: seq<string>)
    ensures config.Keys <= Override(config, args).Keys
    ensures forall k :: 0 <= k < |args| && '=' in args[k] ==> Assignment(args[k]).value.0 in Override(config, args)
  {
    if args != [] {
      var init := args[..|args| - 1];
      OverrideKeys(config, init);
      forall k | 0 <= k < |args| && '=' in args[k]
        ensures Assignment(args[k]).value.0 in Override(config, args)
      {
        if k < |args| - 1 {
          assert args[k] == init[k];
        }
      }
    }
  }

  /** An argument without '=' is ignored. */
  lemma OverrideIgnoresPlainArgument(config: map<string, string>, args: seq<string>, arg: string)
    requires '=' !in arg
    ensures Override(config, args + [arg]) == Override(config, args)
  {
    assert (args + [arg])[..|args|] == args;
  }

  /** main's loop over sys.argv[1:]. */
  method ApplyArguments(args: seq<string>) returns (config: map<string, string>)
    ensures config == Override(DefaultConfig, args)
  {
    config := DefaultConfig;
    for i := 0 to |args|
      invariant config == Override(DefaultConfig, args[..i])
    {
      assert args[..i + 1][..i] == args[..i];
      var arg := args[i];
      if '=' in arg {
        var eq := Find(arg, '=');
        config := config[arg[..eq] := arg[eq + 1..]];
      }
    }
    assert args[..|args|] == args;
  }

  // ---------------------------------------------------------------------------
  // Filter parsing
  // ---------------------------------------------------------------------------

  /** `x.strip()` of every piece, in order. */
  function StripAll(pieces: seq<string>): (ss: seq<string>)
    ensures |ss| == |pieces|
    ensures forall k :: 0 <= k < |pieces| ==> ss[k] == Strip(pieces[k])
  {
    seq(|pieces|, k requires 0 <= k < |pieces| => Strip(pieces[k]))
  }

  /** The comprehension's `if x.strip()`: the non-empty strings, in order. */
  function NonEmpty(ss: seq<string>): (r: seq<string>)
    ensures |r| <= |ss|
    ensures forall k :: 0 <= k < |r| ==> r[k] != ""
  {
    if ss == [] then []
    else if ss[0] == "" then NonEmpty(ss[1..])
    else [ss[0]] + NonEmpty(ss[1..])
  }

  /** Filtering works string by string: it distributes over concatenation. */
  lemma {:induction false} NonEmptyAppend(a: seq<string>, b: seq<string>)
    ensures NonEmpty(a + b) == NonEmpty(a) + NonEmpty(b)
  {
    if a == [] {
      assert a + b == b;
    } else {
      assert (a + b)[0] == a[0] && (a + b)[1..] == a[1..] + b;
      NonEmptyAppend(a[1..], b);
    }
  }

  /** What the filter keeps was among its input. */
  lemma {:induction false} NonEmptyKeeps(ss: seq<string>)
    ensures forall k :: 0 <= k < |NonEmpty(ss)| ==> NonEmpty(ss)[k] in ss
  {
    if ss != [] {
      NonEmptyKeeps(ss[1..]);
      assert forall t <- ss[1..] :: t in ss;
    }
  }

  /** Strings that are all non-empty pass the filter unchanged. */
  lemma {:induction false} NonEmptyOfNonEmpty(ss: seq<string>)
    requires forall k :: 0 <= k < |ss| ==> ss[k] != ""
    ensures NonEmpty(ss) == ss
  {
    if ss != [] {
      NonEmptyOfNonEmpty(ss[1..]);
      assert [ss[0]] + ss[1..] == ss;
    }
  }

  /** The non-blank tokens of a comma-separated list, stripped. */
  function Tokens(s: string): (ts: seq<string>)
    ensures forall k :: 0 <= k < |ts| ==> ts[k] != ""
  {
    NonEmpty(StripAll(Split(s, ',')))
  }

  /** Stripping comma-free pieces and dropping the empty results leaves comma-free tokens. */
  lemma TokensFromPieces(pieces: seq<string>)
    requires forall p <- pieces :: ',' !in p
    ensures forall t <- NonEmpty(StripAll(pieces)) :: ',' !in t
  {
    var stripped := StripAll(pieces);
    NonEmptyKeeps(stripped);
    forall t <- NonEmpty(stripped) ensures ',' !in t {
      assert t in stripped;
      var j :| 0 <= j < |stripped| && stripped[j] == t;
      assert pieces[j] in pieces;
      StripKeepsOut(pieces[j], ',');
    }
  }

  /** No token holds a comma. */
  lemma TokensCommaFree(s: string)
    ensures forall t <- Tokens(s) :: ',' !in t
  {
    SplitPiecesSeparatorFree(s, ',');
    TokensFromPieces(Split(s, ','));
  }

  /** Applies int() to every token; None as soon as one token is not a decimal. */
  function ParseEach(ts: seq<string>): (r: Option<seq<int>>)
    ensures r.Some? <==> forall k :: 0 <= k < |ts| ==> ParseInt(ts[k]).Some?
    ensures r.Some? ==> |r.value| == |ts| && forall k :: 0 <= k < |ts| ==> ParseInt(ts[k]) == Some(r.value[k])
  {
    if ts == [] then Some([])
    else
      match ParseInt(ts[0])
      case None => None
      case Some(v) =>
        match ParseEach(ts[1..])
        case None => None
        case Some(vs) => Some([v] + vs)
  }

  /** parse_ids: one int per non-blank token, in order; None where int() raises. */
  function ParseIds(idString: string): (r: Option<seq<int>>)
    ensures idString == "" ==> r == Some([])
  {
    if idString == "" then Some([]) else ParseEach(Tokens(idString))
  }

  /**
    parse_ids token by token: it succeeds exactly when every non-blank token is a
    decimal, and then yields one int per token, in order.
   */
  lemma ParseIdsTokenwise(idString: string)
    ensures var ts := Tokens(idString);
      && (ParseIds(idString).Some? <==> forall k :: 0 <= k < |ts| ==> ParseInt(ts[k]).Some?)
      && (ParseIds(idString).Some? ==>
            |ParseIds(idString).value| == |ts|
            && forall k :: 0 <= k < |ts| ==> ParseInt(ts[k]) == Some(ParseIds(idString).value[k]))
  {
    ParseIdsOfTokens(idString);
  }

  /** The empty string has no tokens. */
  lemma TokensOfEmpty()
    ensures Tokens("") == []
  {
    assert Split("", ',') == [""];
    assert StripAll([""]) == [""];
  }

  /** parse_ids is int() over the tokens, the empty string included. */
  lemma ParseIdsOfTokens(idString: string)
    ensures ParseIds(idString) == ParseEach(Tokens(idString))
  {
    if idString == "" {
      TokensOfEmpty();
    }
  }

  /** Tokenising joined comma-free pieces strips them and drops the blank ones. */
  lemma TokensOfJoin(pieces: seq<string>)
    requires pieces != []
    requires forall p <- pieces :: ',' !in p
    ensures Tokens(Join(pieces, ',')) == NonEmpty(StripAll(pieces))
  {
    SplitJoin(pieces, ',');
  }

  /** Stripping works piece by piece. */
  lemma StripAllAppend(a: seq<string>, b: seq<string>)
    ensures StripAll(a + b) == StripAll(a) + StripAll(b)
  {
    assert forall k :: 0 <= k < |a| ==> (a + b)[k] == a[k];
    assert forall k :: |a| <= k < |a + b| ==> (a + b)[k] == b[k - |a|];
  }

  /** An empty string anywhere in the input is dropped by the filter. */
  lemma NonEmptySkipsEmpty(x: seq<string>, y: seq<string>)
    ensures NonEmpty(x + [""] + y) == NonEmpty(x + y)
  {
    NonEmptyAppend(x + [""], y);
    NonEmptyAppend(x, [""]);
    assert NonEmpty([""]) == NonEmpty([]);
    NonEmptyAppend(x, y);
  }

  /** A blank piece strips to the empty string in place. */
  lemma StripAllWithBlank(a: seq<string>, blank: string, b: seq<string>)
    requires IsBlank(blank)
    ensures StripAll(a + [blank] + b) == StripAll(a) + [""] + StripAll(b)
  {
    StripAllAppend(a + [blank], b);
    StripAllAppend(a, [blank]);
    assert StripAll([blank]) == [""];
  }

  /** A blank piece contributes nothing to the stripped tokens. */
  lemma StrippedSkipsBlank(a: seq<string>, blank: string, b: seq<string>)
    requires IsBlank(blank)
    ensures NonEmpty(StripAll(a + [blank] + b)) == NonEmpty(StripAll(a + b))
  {
    StripAllWithBlank(a, blank, b);
    StripAllAppend(a, b);
    NonEmptySkipsEmpty(StripAll(a), StripAll(b));
  }

  /** A blank piece between commas (as in "3,,52" or "3,52,") contributes no token. */
  lemma BlankPieceIgnored(a: seq<string>, blank: string, b: seq<string>)
    requires a + b != []
    requires forall p <- a + [blank] + b :: ',' !in p
    requires IsBlank(blank)
    ensures Tokens(Join(a + [blank] + b, ',')) == Tokens(Join(a + b, ','))
  {
    TokensOfJoin(a + [blank] + b);
    assert forall p <- a + b :: p in a + [blank] + b;
    TokensOfJoin(a + b);
    StrippedSkipsBlank(a, blank, b);
  }

  /** ...and so no id: parse_ids reads "3,,52" and "3,52," as it reads "3,52". */
  lemma BlankPieceNoId(a: seq<string>, blank: string, b: seq<string>)
    requires a + b != []
    requires forall p <- a + [blank] + b :: ',' !in p
    requires IsBlank(blank)
    ensures ParseIds(Join(a + [blank] + b, ',')) == ParseIds(Join(a + b, ','))
  {
    BlankPieceIgnored(a, blank, b);
    ParseIdsOfTokens(Join(a + [blank] + b, ','));
    ParseIdsOfTokens(Join(a + b, ','));
  }

  /** parse_states: every non-blank token, stripped and upper-cased, in order. */
  function ParseStates(stateString: string): (r: seq<string>)
    ensures |r| == |Tokens(stateString)|
    ensures forall k :: 0 <= k < |r| ==> r[k] == Upper(Tokens(stateString)[k])
  {
    if stateString == "" then TokensOfEmpty(); []
    else
      var ts := Tokens(stateString);
      seq(|ts|, k requires 0 <= k < |ts| => Upper(ts[k]))
  }

  /** Every state parse_states keeps is a non-empty, upper-case code without commas. */
  lemma ParseStatesNormalised(stateString: string)
    ensures forall st <- ParseStates(stateString) :: st != "" && ',' !in st && NoLowercase(st)
  {
    var ts := Tokens(stateString);
    var r := ParseStates(stateString);
    TokensCommaFree(stateString);
    forall k | 0 <= k < |r| ensures r[k] != "" && ',' !in r[k] && NoLowercase(r[k]) {
      assert ts[k] in ts;
      UpperKeepsOut(ts[k], ',');
    }
  }

  /** The filters run() parses from the configuration; None where parse_ids raises. */
  function ParseConfig(config: map<string, string>): (r: Option<Filters>)
    ensures r.None? <==>
      || ParseIds(SpeciesSetting(config)).None?
      || ParseIds(PhenophaseSetting(config)).None?
    ensures r.Some? ==> r.value == Filters(ParseIds(SpeciesSetting(config)).value,
      ParseIds(PhenophaseSetting(config)).value, ParseStates(StatesSetting(config)))
  {
    var species := ParseIds(SpeciesSetting(config));
    var phenophases := ParseIds(PhenophaseSetting(config));
    if species.None? || phenophases.None? then None
    else Some(Filters(species.value, phenophases.value, ParseStates(StatesSetting(config))))
  }

  // ---------------------------------------------------------------------------
  // Synthetic observations
  // ---------------------------------------------------------------------------

  /** species_names.get(id, f'Species_{id}'). */
  function SpeciesName(id: int): (n: string)
    ensures n != "" && (n[0] == 'S' <==> id !in SpeciesNames)
  {
    assert id in SpeciesNames ==> id == 3 || id == 35 || id == 52;
    if id in SpeciesNames then SpeciesNames[id] else "Species_" + IntToString(id)
  }

  /** phenophase_names.get(id, f'Phenophase_{id}'). */
  function PhenophaseName(id: int): (n: string)
    ensures n != "" && (n[0] == 'P' <==> id !in PhenophaseNames)
  {
    assert id in PhenophaseNames ==> id == 373 || id == 501 || id == 390;
    if id in PhenophaseNames then PhenophaseNames[id] else "Phenophase_" + IntToString(id)
  }

  /** A species name identifies its species id. */
  lemma SpeciesNameInjective(a: int, b: int)
    requires SpeciesName(a) == SpeciesName(b)
    ensures a == b
  {
    if a !in SpeciesNames && b !in SpeciesNames {
      var pa, pb := "Species_" + IntToString(a), "Species_" + IntToString(b);
      assert IntToString(a) == pa[8..] && IntToString(b) == pb[8..];
      IntToStringInjective(a, b);
    } else if a in SpeciesNames && b in SpeciesNames {
      assert a == 3 || a == 35 || a == 52;
    }
  }

  /** A phenophase name identifies its phenophase id. */
  lemma PhenophaseNameInjective(a: int, b: int)
    requires PhenophaseName(a) == PhenophaseName(b)
    ensures a == b
  {
    if a !in PhenophaseNames && b !in PhenophaseNames {
      var pa, pb := "Phenophase_" + IntToString(a), "Phenophase_" + IntToString(b);
      assert IntToString(a) == pa[11..] && IntToString(b) == pb[11..];
      IntToStringInjective(a, b);
    } else if a in PhenophaseNames && b in PhenophaseNames {
      assert a == 373 || a == 501 || a == 390;
    }
  }

  /** `random.choice(xs) if xs else default`, with the pick supplied by the chooser. */
  function ChoiceOr<T>(xs: seq<T>, pick: nat, default: T): (x: T)
    ensures xs == [] ==> x == default
    ensures xs != [] ==> x in xs
  {
    if xs == [] then default else xs[pick % |xs|]
  }

  /** round(random.uniform(32.0, 42.0), 6), in millionths of a degree. */
  function LatitudeMicro(pick: nat): (lat: int)
    ensures 32_000_000 <= lat <= 42_000_000
  {
    32_000_000 + pick % 10_000_001
  }

  /** round(random.uniform(-120.0, -100.0), 6), in millionths of a degree. */
  function LongitudeMicro(pick: nat): (lon: int)
    ensures -120_000_000 <= lon <= -100_000_000
  {
    -120_000_000 + pick % 20_000_001
  }

  /** The observation generate_test_data builds in round i. */
  function SyntheticObservation(i: nat, f: Filters, choose: (nat, Draw) -> nat, clock: nat -> Instant): (o: Observation)
    ensures WellFormedSynthetic(o, i, f)
  {
    var now := clock(i);
    var speciesId := ChoiceOr(f.speciesIds, choose(i, SpeciesDraw), DefaultSpeciesId);
    var phenophaseId := ChoiceOr(f.phenophaseIds, choose(i, PhenophaseDraw), DefaultPhenophaseId);
    var state := ChoiceOr(f.states, choose(i, StateDraw), DefaultState);
    Observation(
      observationId := ObservationId(now.epochSeconds, i),
      speciesId := speciesId,
      speciesName := SpeciesName(speciesId),
      phenophaseId := phenophaseId,
      phenophaseName := PhenophaseName(phenophaseId),
      observationDate := now.date,
      observationDateTime := now.epochSeconds,
      latitudeMicro := LatitudeMicro(choose(i, LatitudeDraw)),
      longitudeMicro := LongitudeMicro(choose(i, LongitudeDraw)),
      state := state,
      siteName := "Test Site " + IntToString(i + 1),
      phenophaseStatus := [0, 1][choose(i, StatusDraw) % 2],
      intensityValue := Intensities[choose(i, IntensityDraw) % 4],
      dataSource := "TEST",
      collectionTimestamp := now.isoTimestamp)
  }

  /** What generate_test_data guarantees of each observation it builds in round i. */
  ghost predicate WellFormedSynthetic(o: Observation, i: nat, f: Filters)
  {
    && (f.speciesIds == [] ==> o.speciesId == DefaultSpeciesId)
    && (f.speciesIds != [] ==> o.speciesId in f.speciesIds)
    && (f.phenophaseIds == [] ==> o.phenophaseId == DefaultPhenophaseId)
    && (f.phenophaseIds != [] ==> o.phenophaseId in f.phenophaseIds)
    && (f.states == [] ==> o.state == DefaultState)
    && (f.states != [] ==> o.state in f.states)
    && o.speciesName == SpeciesName(o.speciesId)
    && o.phenophaseName == PhenophaseName(o.phenophaseId)
    && EndsWith(o.observationId, "_" + IntToString(i))
    && o.siteName == "Test Site " + IntToString(i + 1)
    && 32_000_000 <= o.latitudeMicro <= 42_000_000
    && -120_000_000 <= o.longitudeMicro <= -100_000_000
    && o.phenophaseStatus in {0, 1}
    && o.intensityValue in Intensities
    && o.dataSource == "TEST"
  }

  /** f'test_{t}_{i}': it ends in `_<i>`, so its last character is the last digit of i. */
  function ObservationId(t: int, i: nat): (id: string)
    ensures EndsWith(id, "_" + IntToString(i))
    ensures id[|id| - 1] == DigitChar(i % 10)
  {
    var suffix := "_" + IntToString(i);
    var id := "test_" + IntToString(t) + suffix;
    assert id[|id| - |suffix|..] == suffix;
    id
  }

  /** make(0), ..., make(n - 1), in order: what a `for i in range(n)` loop appending make(i) builds. */
  function Rounds<T>(n: nat, make: nat -> T): (xs: seq<T>)
    ensures |xs| == n
  {
    if n == 0 then [] else Rounds(n - 1, make) + [make(n - 1)]
  }

  /** Entry i of the rounds is make(i). */
  lemma {:induction false} RoundsAt<T>(n: nat, make: nat -> T, i: nat)
    requires i < n
    ensures Rounds(n, make)[i] == make(i)
  {
    if i < n - 1 {
      RoundsAt(n - 1, make, i);
    }
  }

  /** The first n observations generate_test_data builds, in generation order. */
  function SyntheticBatch(n: nat, f: Filters, choose: (nat, Draw) -> nat, clock: nat -> Instant): (batch: seq<Observation>)
    ensures |batch| == n
  {
    Rounds(n, i => SyntheticObservation(i, f, choose, clock))
  }

  /** Round i of the batch is SyntheticObservation(i). */
  lemma SyntheticBatchAt(n: nat, f: Filters, choose: (nat, Draw) -> nat, clock: nat -> Instant, i: nat)
    requires i < n
    ensures SyntheticBatch(n, f, choose, clock)[i] == SyntheticObservation(i, f, choose, clock)
  {
    RoundsAt(n, i => SyntheticObservation(i, f, choose, clock), i);
  }

  /** generate_test_data: exactly five observations, round i producing SyntheticObservation(i). */
  method GenerateTestData(f: Filters, choose: (nat, Draw) -> nat, clock: nat -> Instant) returns (data: seq<Observation>)
    ensures data == SyntheticBatch(BatchSize, f, choose, clock)
    ensures |data| == BatchSize
    ensures forall i :: 0 <= i < |data| ==> WellFormedSynthetic(data[i], i, f)
  {
    data := [];
    for i := 0 to BatchSize
      invariant data == SyntheticBatch(i, f, choose, clock)
    {
      data := data + [SyntheticObservation(i, f, choose, clock)];
    }
    forall i | 0 <= i < |data|
      ensures WellFormedSynthetic(data[i], i, f)
    {
      SyntheticBatchAt(BatchSize, f, choose, clock, i);
    }
  }

  /** fetch_data: the live sources are stubs, so the test data is returned. */
  method FetchData(f: Filters, choose: (nat, Draw) -> nat, clock: nat -> Instant) returns (data: seq<Observation>)
    ensures data == SyntheticBatch(BatchSize, f, choose, clock)
  {
    data := GenerateTestData(f, choose, clock);
  }

  /** Within one batch the observation ids are pairwise distinct, whatever the clock reads. */
  lemma BatchIdsDistinct(f: Filters, choose: (nat, Draw) -> nat, clock: nat -> Instant, i: nat, j: nat)
    requires i < BatchSize && j < BatchSize && i != j
    ensures SyntheticObservation(i, f, choose, clock).observationId != SyntheticObservation(j, f, choose, clock).observationId
  {
    var a := ObservationId(clock(i).epochSeconds, i);
    var b := ObservationId(clock(j).epochSeconds, j);
    assert a[|a| - 1] != b[|b| - 1];
  }

  /** The single event output_test_event writes. */
  function TestEvent(now: Instant): (e: Observation)
    ensures e.speciesId == DefaultSpeciesId && e.phenophaseId == DefaultPhenophaseId && e.state == DefaultState
  {
    Observation(
      observationId := "test_" + IntToString(now.epochSeconds),
      speciesId := 3,
      speciesName := "Test Species",
      phenophaseId := 373,
      phenophaseName := "Test Phenophase",
      observationDate := now.date,
      observationDateTime := now.epochSeconds,
      latitudeMicro := 37_774_900,
      longitudeMicro := -122_419_400,
      state := "CA",
      siteName := "Test Site",
      phenophaseStatus := 1,
      intensityValue := "Test",
      dataSource := "TEST",
      collectionTimestamp := now.isoTimestamp)
  }

  /** Everything run() writes for a configuration. */
  function RunOutput(config: map<string, string>, choose: (nat, Draw) -> nat, clock: nat -> Instant): (events: seq<Observation>)
    ensures |events| >= 1
    ensures ParseConfig(config).None? <==> |events| == 1
    ensures ParseConfig(config).None? ==> events == [TestEvent(clock(0))]
    ensures ParseConfig(config).Some? ==> events == SyntheticBatch(BatchSize, ParseConfig(config).value, choose, clock)
  {
    match ParseConfig(config)
    case None => [TestEvent(clock(0))]
    case Some(f) => SyntheticBatch(BatchSize, f, choose, clock)
  }

  /** The decimal text of each id. */
  function Printed(ids: seq<int>): (ss: seq<string>)
    ensures |ss| == |ids|
  {
    seq(|ids|, k requires 0 <= k < |ids| => IntToString(ids[k]))
  }

  /** Printed ids are non-empty, comma-free and have no surrounding whitespace. */
  lemma PrintedTrimmed(ids: seq<int>)
    ensures forall k :: 0 <= k < |ids| ==>
      Printed(ids)[k] != "" && ',' !in Printed(ids)[k] && Strip(Printed(ids)[k]) == Printed(ids)[k]
  {
    forall k | 0 <= k < |ids|
      ensures Printed(ids)[k] != "" && ',' !in Printed(ids)[k] && Strip(Printed(ids)[k]) == Printed(ids)[k]
    {
      var p := IntToString(ids[k]);
      assert p[0] == '-' || IsDigit(p[0]);
      StripTrimmed(p);
    }
  }

  /** Printed ids, joined with commas, tokenise back into themselves. */
  lemma TokensOfPrinted(ids: seq<int>)
    requires ids != []
    ensures Tokens(Join(Printed(ids), ',')) == Printed(ids)
  {
    var pieces := Printed(ids);
    PrintedTrimmed(ids);
    TokensOfJoin(pieces);
    assert StripAll(pieces) == pieces;
    NonEmptyOfNonEmpty(pieces);
  }

  /** int() of each printed id gives the id back. */
  lemma ParseEachPrinted(ids: seq<int>)
    ensures ParseEach(Printed(ids)) == Some(ids)
  {
    var pieces := Printed(ids);
    forall k | 0 <= k < |pieces|
      ensures ParseInt(pieces[k]) == Some(ids[k])
    {
      ParseIntToString(ids[k]);
    }
    var r := ParseEach(pieces);
    assert r.Some?;
    assert r.value == ids;
  }

  /** parse_ids inverts ",".join(str(i) for i in ids). */
  lemma ParseIdsRoundTrip(ids: seq<int>)
    ensures ParseIds(Join(Printed(ids), ',')) == Some(ids)
  {
    if ids == [] {
      assert Join(Printed(ids), ',') == "";
    } else {
      TokensOfPrinted(ids);
      ParseEachPrinted(ids);
      ParseIdsOfTokens(Join(Printed(ids), ','));
    }
  }

  /** The decimal text of the default id lists. */
  lemma PrintedDefaultSpecies()
    ensures Printed([3, 35, 52]) == ["3", "35", "52"]
  {
    assert NatToString(3) == "3";
    assert NatToString(35) == "35";
    assert NatToString(52) == "52";
  }

  lemma PrintedDefaultPhenophases()
    ensures Printed([373, 501, 390]) == ["373", "501", "390"]
  {
    assert NatToString(37) == "37";
    assert NatToString(373) == "373";
    assert NatToString(50) == "50";
    assert NatToString(501) == "501";
    assert NatToString(39) == "39";
    assert NatToString(390) == "390";
  }

  /** The species list of the configuration main builds parses. */
  lemma DefaultSpeciesParse()
    ensures ParseIds("3,35,52") == Some([3, 35, 52])
  {
    PrintedDefaultSpecies();
    assert Join(["3", "35", "52"], ',') == "3,35,52";
    ParseIdsRoundTrip([3, 35, 52]);
  }

  /** The phenophase list of the configuration main builds parses. */
  lemma DefaultPhenophasesParse()
    ensures ParseIds("373,501,390") == Some([373, 501, 390])
  {
    PrintedDefaultPhenophases();
    assert Join(["373", "501", "390"], ',') == "373,501,390";
    ParseIdsRoundTrip([373, 501, 390]);
  }

  /** The id lists of the configuration main builds parse, so that run emits the generated batch. */
  /** The id and state lists main's default configuration holds. */
  lemma DefaultSettings()
    ensures SpeciesSetting(DefaultConfig) == "3,35,52"
    ensures PhenophaseSetting(DefaultConfig) == "373,501,390"
  {
  }

  lemma DefaultConfigParses()
    ensures ParseIds("3,35,52") == Some([3, 35, 52])
    ensures ParseIds("373,501,390") == Some([373, 501, 390])
    ensures ParseConfig(DefaultConfig).Some?
  {
    DefaultSpeciesParse();
    DefaultPhenophasesParse();
    DefaultSettings();
  }

  // ---------------------------------------------------------------------------
  // Emission
  // ---------------------------------------------------------------------------

  /** Standard output: every line written so far, flushed. */
  class Stdout {
    var lines: seq<Observation>

    constructor ()
      ensures lines == []
    {
      lines := [];
    }

    /** output_event: one JSON line per observation. */
    method Emit(o: Observation)
      modifies this
      ensures lines == old(lines) + [o]
    {
      lines := lines + [o];
    }
  }

  /** The input handler (ChronoBloomInput). */
  class InputHandler {
    const config: map<string, string>

    constructor (config: map<string, string>)
      ensures this.config == config
    {
      this.config := config;
    }

    /** output_test_event. */
    method OutputTestEvent(out: Stdout, clock: nat -> Instant)
      modifies out
      ensures out.lines == old(out.lines) + [TestEvent(clock(0))]
    {
      out.Emit(TestEvent(clock(0)));
    }

    /** run: the generated observations in order, or exactly one test event when parsing raises. */
    method Run(out: Stdout, choose: (nat, Draw) -> nat, clock: nat -> Instant)
      modifies out
      ensures out.lines == old(out.lines) + RunOutput(config, choose, clock)
    {
      var speciesIds := ParseIds(SpeciesSetting(config));
      if speciesIds.None? {
        OutputTestEvent(out, clock);
        return;
      }
      var phenophaseIds := ParseIds(PhenophaseSetting(config));
      if phenophaseIds.None? {
        OutputTestEvent(out, clock);
        return;
      }
      var states := ParseStates(StatesSetting(config));
      var data := FetchData(Filters(speciesIds.value, phenophaseIds.value, states), choose, clock);
      assert data == RunOutput(config, choose, clock);
      EmitAll(out, data);
    }
  }

  /** run's `for observation in data: self.output_event(observation)`. */
  method EmitAll(out: Stdout, data: seq<Observation>)
    modifies out
    ensures out.lines == old(out.lines) + data
  {
    for k := 0 to |data|
      invariant out.lines == old(out.lines) + data[..k]
    {
      assert data[..k + 1] == data[..k] + [data[k]];
      out.Emit(data[k]);
    }
    assert data[..|data|] == data;
  }

  /** main: apply the command line to the default configuration, then run the handler. */
  method RunFromCommandLine(args: seq<string>, out: Stdout, choose: (nat, Draw) -> nat, clock: nat -> Instant)
    modifies out
    ensures out.lines == old(out.lines) + RunOutput(Override(DefaultConfig, args), choose, clock)
  {
    var config := ApplyArguments(args);
    var handler := new InputHandler(config);
    handler.Run(out, choose, clock);
  }
}
