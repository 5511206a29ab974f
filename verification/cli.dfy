/**
 * The positional command line of the four-factor analysis script and the
 * argument lists the two AHP dialogs hand to it.  `argv[0]` is the script
 * path; the script needs at least 20 entries and reads, by position, three
 * file paths, four weights, four (low, high) threshold pairs, three colour
 * names and a save path.  `float()` is an oracle `parse` and the dialogs'
 * `str()` an oracle `show`.
 */
module Cli {
  import opened Wrappers

  /** The middle band `[low, high]` of one factor. */
  datatype Band = Band(low: real, high: real)

  /** Everything the analysis script reads from its command line. */
  datatype Settings = Settings(
    dem: string, rainfall: string, proximity: string,
    elevationWeight: real, slopeWeight: real, proximityWeight: real, rainfallWeight: real,
    elevationBand: Band, slopeBand: Band, rainfallBand: Band, proximityBand: Band,
    highColour: string, mediumColour: string, lowColour: string,
    save: string)

  /** The usage exit, or the `ValueError` of the first `float()` that fails. */
  datatype ArgError = Usage | NotANumber(index: nat)

  /** The script needs this many entries, its own path included. */
  const RequiredArgs := 20

  /** Positions of the numeric arguments: four weights, then eight thresholds. */
  const FirstNumber := 4
  const LastNumber := 15

  /** The first position in `s` whose entry does not parse. */
  function FirstUnparsable(s: seq<string>, parse: string -> Option<real>): (k: Option<nat>)
    ensures k.None? <==> forall i :: 0 <= i < |s| ==> parse(s[i]).Some?
    ensures k.Some? ==> k.value < |s| && parse(s[k.value]).None?
    ensures k.Some? ==> forall i :: 0 <= i < k.value ==> parse(s[i]).Some?
  {
    if |s| == 0 then None
    else if parse(s[0]).None? then Some(0)
    else
      match FirstUnparsable(s[1..], parse)
      case None => None
      case Some(k) => Some(k + 1)
  }

  /**
   * The script's argument handling: the usage exit when fewer than 20
   * entries are given, else each numeric entry is parsed in position order
   * and the first that fails raises.
   */
  function ParseArgs(argv: seq<string>, parse: string -> Option<real>): (r: Result<Settings, ArgError>)
    ensures r == Failure(Usage) <==> |argv| < RequiredArgs
    ensures r.Failure? && r.error.NotANumber? ==>
      FirstNumber <= r.error.index <= LastNumber && parse(argv[r.error.index]).None? &&
      forall i :: FirstNumber <= i < r.error.index ==> parse(argv[i]).Some?
    ensures r.Success? <==> (|argv| >= RequiredArgs && forall i :: FirstNumber <= i <= LastNumber ==> parse(argv[i]).Some?)
    ensures r.Success? ==>
      r.value.dem == argv[1] && r.value.rainfall == argv[2] && r.value.proximity == argv[3] &&
      r.value.highColour == argv[16] && r.value.mediumColour == argv[17] && r.value.lowColour == argv[18] &&
      r.value.save == argv[19]
    ensures r.Success? ==> forall k :: 0 <= k < 12 ==> parse(argv[k + FirstNumber]) == Some(Numbers(r.value)[k])
  {
    if |argv| < RequiredArgs then Failure(Usage)
    else
      match FirstUnparsable(argv[FirstNumber..LastNumber + 1], parse)
      case Some(k) => Failure(NotANumber(k + FirstNumber))
      case None =>
        var n := (i: nat) requires FirstNumber <= i <= LastNumber => parse(argv[i]).value;
        Success(Settings(
          argv[1], argv[2], argv[3],
          n(4), n(5), n(6), n(7),
          Band(n(8), n(9)), Band(n(10), n(11)), Band(n(12), n(13)), Band(n(14), n(15)),
          argv[16], argv[17], argv[18],
          argv[19]))
  }

  /** The numbers of `s` in the order they travel on the command line. */
  function Numbers(s: Settings): (xs: seq<real>)
  {
    [s.elevationWeight, s.slopeWeight, s.proximityWeight, s.rainfallWeight,
     s.elevationBand.low, s.elevationBand.high, s.slopeBand.low, s.slopeBand.high,
     s.rainfallBand.low, s.rainfallBand.high, s.proximityBand.low, s.proximityBand.high]
  }

  /** `str()` followed by `float()` gives back each number of `s`. */
  predicate ShowParses(s: Settings, show: real -> string, parse: string -> Option<real>)
  {
    forall k :: 0 <= k < 12 ==> parse(show(Numbers(s)[k])) == Some(Numbers(s)[k])
  }

  /**
   * The list built by the four-factor dialog's `run_script`: the script
   * path, three file paths, four weights, four threshold pairs and three
   * colours, 19 entries, with no save path.
   */
  function FourFactorDialogArgs(script: string, s: Settings, show: real -> string): (argv: seq<string>)
    ensures |argv| == RequiredArgs - 1
    ensures argv[0] == script && argv[1] == s.dem && argv[2] == s.rainfall && argv[3] == s.proximity
    ensures forall k :: 0 <= k < 12 ==> argv[k + FirstNumber] == show(Numbers(s)[k])
    ensures argv[16] == s.highColour && argv[17] == s.mediumColour && argv[18] == s.lowColour
  {
    [script, s.dem, s.rainfall, s.proximity,
     show(s.elevationWeight), show(s.slopeWeight), show(s.proximityWeight), show(s.rainfallWeight),
     show(s.elevationBand.low), show(s.elevationBand.high),
     show(s.slopeBand.low), show(s.slopeBand.high),
     show(s.rainfallBand.low), show(s.rainfallBand.high),
     show(s.proximityBand.low), show(s.proximityBand.high),
     s.highColour, s.mediumColour, s.lowColour]
  }

  /** The list built by the weights-only dialog's `run_script`: script, three paths and four weights. */
  function WeightsDialogArgs(script: string, s: Settings, show: real -> string): (argv: seq<string>)
    ensures |argv| == 8
    ensures argv[0] == script && argv[1] == s.dem
  {
    [script, s.dem, s.rainfall, s.proximity,
     show(s.elevationWeight), show(s.slopeWeight), show(s.proximityWeight), show(s.rainfallWeight)]
  }

  /** The four-factor dialog's list always ends in the usage exit, whatever it carries. */
  lemma {:induction false} FourFactorDialogRejected(script: string, s: Settings, show: real -> string, parse: string -> Option<real>)
    ensures ParseArgs(FourFactorDialogArgs(script, s, show), parse) == Failure(Usage)
  {
  }

  /** So does the weights-only dialog's list. */
  lemma {:induction false} WeightsDialogRejected(script: string, s: Settings, show: real -> string, parse: string -> Option<real>)
    ensures ParseArgs(WeightsDialogArgs(script, s, show), parse) == Failure(Usage)
  {
  }

  /** The four-factor list with the save path appended, the one entry it lacks. */
  function CompleteDialogArgs(script: string, s: Settings, show: real -> string): (argv: seq<string>)
    ensures |argv| == RequiredArgs
    ensures argv[..RequiredArgs - 1] == FourFactorDialogArgs(script, s, show)
    ensures argv[RequiredArgs - 1] == s.save
  {
    FourFactorDialogArgs(script, s, show) + [s.save]
  }

  /**
   * With the save path appended the dialog and the script agree: every
   * field the dialog sends comes back in the slot it was sent for, so the
   * weight order (elevation, slope, proximity, rainfall) and the threshold
   * order (elevation, slope, rainfall, proximity) match on both sides.
   */
  lemma {:induction false} CompleteDialogRoundTrip(script: string, s: Settings, show: real -> string, parse: string -> Option<real>)
    requires ShowParses(s, show, parse)
    ensures ParseArgs(CompleteDialogArgs(script, s, show), parse) == Success(s)
  {
    var argv := CompleteDialogArgs(script, s, show);
    var dialog := FourFactorDialogArgs(script, s, show);
    assert forall i :: 0 <= i < RequiredArgs - 1 ==> argv[i] == dialog[i];
    ParsesTo(argv, parse, s);
  }

  /** An argument list carrying the strings of `s` and entries that parse to its numbers yields `s`. */
  lemma {:induction false} ParsesTo(argv: seq<string>, parse: string -> Option<real>, s: Settings)
    requires |argv| == RequiredArgs
    requires argv[1] == s.dem && argv[2] == s.rainfall && argv[3] == s.proximity
    requires argv[16] == s.highColour && argv[17] == s.mediumColour && argv[18] == s.lowColour && argv[19] == s.save
    requires forall k :: 0 <= k < 12 ==> parse(argv[k + FirstNumber]) == Some(Numbers(s)[k])
    ensures ParseArgs(argv, parse) == Success(s)
  {
    assert forall i :: FirstNumber <= i <= LastNumber ==> parse(argv[i]) == Some(Numbers(s)[i - FirstNumber]);
  }

  /** Default DEM of the single-factor zone script. */
  const DefaultDem := "data/puneDem.tif"

  /** `sys.argv[1] if len(sys.argv) > 1 else 'data/puneDem.tif'`. */
  function DemPath(argv: seq<string>): (p: string)
    ensures |argv| > 1 ==> p == argv[1]
    ensures |argv| <= 1 ==> p == DefaultDem
  {
    if |argv| > 1 then argv[1] else DefaultDem
  }
}
