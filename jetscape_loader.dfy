/** The JETSCAPE event-file loader: option validation, the index pass over
    the event markers, the window of lines to skip and to read, the bounded
    read that groups particle lines into events, and the `sigmaGen` scan of
    the last line. The file is a sequence of lines without their newlines. */
module JetscapeLoading {
  import opened Common
  import opened Text
  import opened Particles

  datatype ParticleType = Hadrons | Partons

  datatype LoadError =
    | FileNotFound               // the path does not contain ".dat"
    | UnknownKeyword             // a keyword other than events, filters, particletype
    | EventsNotIntegers          // an event tuple holding a non-integer
    | EventTupleTooShort         // an event tuple with fewer than two entries
    | EventRangeReversed         // first event after the last one
    | NegativeEvent              // a negative event number
    | UnknownParticleType        // particletype neither "hadron" nor "parton"
    | ParticleTypeNotString      // particletype not a string
    | MarkerTooShort             // a marker line with fewer than nine tokens
    | CountNotInteger            // a marker's event or count token not an integer
    | CountOutOfRange            // a marker's event or count beyond 32 bits
    | EventsWrongType            // events neither an int nor a tuple
    | EventIndexOutOfRange       // an event index at or beyond the table
    | UnexpectedEndOfFile        // the file ends inside the read window
    | FirstLineNotHeader         // the first line read is no header
    | HeaderTooShort             // an event header with fewer than three tokens
    | HeaderNotInteger           // an event header whose number is no integer
    | TokenNotNumber             // a particle token that is not a float
    | ParticleRow(cause: ParticleError) // the particle constructor rejects the row
    | StringArithmetic           // arithmetic on a token still held as a string
    | MetadataRowOutOfRange      // a filtered event's row lies beyond the table
    | UnknownCut                 // a filter name that is not a known cut
    | EventCountMismatch         // a full load found another number of events
    | LastLineUnreadable         // the backwards scan for the last line leaves the file
    | TooFewNumbers              // fewer than two numbers on the last line
    | NotLoaded                  // the marker keyword read before any load

  /** The exception class each error is raised as. */
  function ExceptionOf(e: LoadError): PythonException {
    match e
    case FileNotFound => FileNotFoundError
    case EventsNotIntegers => TypeError
    case EventTupleTooShort => IndexError
    case ParticleTypeNotString => TypeError
    case MarkerTooShort => IndexError
    case CountOutOfRange => OverflowError
    case EventsWrongType => TypeError
    case EventIndexOutOfRange => IndexError
    case UnexpectedEndOfFile => IndexError
    case HeaderTooShort => IndexError
    case StringArithmetic => TypeError
    case MetadataRowOutOfRange => IndexError
    case EventCountMismatch => IndexError
    case LastLineUnreadable => OSError
    case TooFewNumbers => IndexError
    case NotLoaded => AttributeError
    case _ => ValueError
  }

  // ---------------------------------------------------------------------
  // Options

  const KnownOptions: set<string> := {"events", "filters", "particletype"}

  predicate AllIntegers(items: seq<Value>) {
    forall k :: 0 <= k < |items| ==> AsInt(items[k]).Some?
  }

  /** The checks on the `events` option: a tuple must hold integers, at least
      two, in order and non-negative; an integer must be non-negative; any
      other value passes here. */
  function EventsCheck(v: Value): Result<bool, LoadError> {
    match v
    case VTuple(items) =>
      if !AllIntegers(items) then Failure(EventsNotIntegers)
      else if |items| < 2 then Failure(EventTupleTooShort)
      else if AsInt(items[0]).value > AsInt(items[1]).value then Failure(EventRangeReversed)
      else if AsInt(items[0]).value < 0 || AsInt(items[1]).value < 0 then Failure(NegativeEvent)
      else Success(true)
    case _ =>
      if AsInt(v).Some? && AsInt(v).value < 0 then Failure(NegativeEvent) else Success(true)
  }

  /** The particle type after the `particletype` option; without the option
      the previous type stays. */
  function ParticleTypeOption(kwargs: map<string, Value>, current: ParticleType): Result<ParticleType, LoadError> {
    if "particletype" !in kwargs then Success(current)
    else match kwargs["particletype"]
      case VStr(s) =>
        if s == "hadron" then Success(Hadrons)
        else if s == "parton" then Success(Partons)
        else Failure(UnknownParticleType)
      case _ => Failure(ParticleTypeNotString)
  }

  /** The `events` option is absent or passes its checks. */
  predicate EventsAccepted(kwargs: map<string, Value>) {
    "events" !in kwargs || EventsCheck(kwargs["events"]).Success?
  }

  /** The validation `load` performs before touching the file. */
  function ValidateOptions(kwargs: map<string, Value>, current: ParticleType): (r: Result<ParticleType, LoadError>)
    ensures !(kwargs.Keys <= KnownOptions) ==> r == Failure(UnknownKeyword)
    ensures r.Success? ==> kwargs.Keys <= KnownOptions
    ensures r.Success? && "events" in kwargs && AsInt(kwargs["events"]).Some? ==> AsInt(kwargs["events"]).value >= 0
    ensures r.Success? && "events" in kwargs && kwargs["events"].VTuple? ==>
      var items := kwargs["events"].items;
      |items| >= 2 && AllIntegers(items) && 0 <= AsInt(items[0]).value <= AsInt(items[1]).value
    ensures r.Success? ==> (r.value == Partons <==>
      if "particletype" in kwargs then kwargs["particletype"] == VStr("parton") else current == Partons)
    ensures kwargs.Keys <= KnownOptions && "events" in kwargs && kwargs["events"].VTuple? ==>
      var items := kwargs["events"].items;
      if !AllIntegers(items) then r == Failure(EventsNotIntegers)
      else if |items| < 2 then r == Failure(EventTupleTooShort)
      else if AsInt(items[0]).value > AsInt(items[1]).value then r == Failure(EventRangeReversed)
      else AsInt(items[0]).value < 0 || AsInt(items[1]).value < 0 ==> r == Failure(NegativeEvent)
    ensures kwargs.Keys <= KnownOptions && "events" in kwargs
      && AsInt(kwargs["events"]).Some? && AsInt(kwargs["events"]).value < 0
      ==> r == Failure(NegativeEvent)
    ensures kwargs.Keys <= KnownOptions && EventsAccepted(kwargs) && "particletype" in kwargs ==>
      match kwargs["particletype"]
      case VStr(s) => r == if s == "hadron" then Success(Hadrons)
                           else if s == "parton" then Success(Partons)
                           else Failure(UnknownParticleType)
      case _ => r == Failure(ParticleTypeNotString)
    ensures kwargs.Keys <= KnownOptions && EventsAccepted(kwargs) && "particletype" !in kwargs ==>
      r == Success(current)
  {
    if !(kwargs.Keys <= KnownOptions) then Failure(UnknownKeyword)
    else
      var _ :- if "events" in kwargs then EventsCheck(kwargs["events"]) else Success(true);
      ParticleTypeOption(kwargs, current)
  }

  /** The marker keyword naming the counted particles. */
  function Keyword(pt: ParticleType): string {
    if pt == Hadrons then "N_hadrons" else "N_partons"
  }

  function ParticleTypeName(pt: ParticleType): string {
    if pt == Hadrons then "hadron" else "parton"
  }

  /** Which events a load asks for. */
  datatype Selection = AllEvents | Single(k: int) | Range(first: int, last: int) | WrongType

  function SelectionOf(kwargs: map<string, Value>): Selection {
    if "events" !in kwargs then AllEvents
    else match kwargs["events"]
      case VTuple(items) =>
        if |items| >= 2 && AsInt(items[0]).Some? && AsInt(items[1]).Some? then
          Range(AsInt(items[0]).value, AsInt(items[1]).value)
        else WrongType
      case v => if AsInt(v).Some? then Single(AsInt(v).value) else WrongType
  }

  /** The selections validation lets through. */
  predicate SelectionValid(sel: Selection) {
    match sel
    case Single(k) => k >= 0
    case Range(a, b) => 0 <= a <= b
    case _ => true
  }

  lemma ValidatedSelection(kwargs: map<string, Value>, current: ParticleType)
    requires ValidateOptions(kwargs, current).Success?
    ensures SelectionValid(SelectionOf(kwargs))
  {
  }

  /** The number the first event header of the window carries. */
  function FirstHeader(sel: Selection): int {
    match sel
    case Single(k) => 1 + k
    case Range(a, _) => 1 + a
    case _ => 1
  }

  function StartOf(sel: Selection): nat
    requires SelectionValid(sel)
  {
    match sel
    case Single(k) => k
    case Range(a, _) => a
    case _ => 0
  }

  // ---------------------------------------------------------------------
  // Index pass

  /** A comment line naming the marker keyword. */
  predicate IsMarkerLine(line: string, keyword: string) {
    Contains(line, "#") && Contains(line, keyword)
  }

  /** The (event, count) token pairs of the marker lines, in file order. */
  function MarkerTokens(lines: seq<string>, keyword: string): Result<seq<(string, string)>, LoadError>
    decreases |lines|
  {
    if |lines| == 0 then Success([])
    else
      var rows :- MarkerTokens(lines[..|lines| - 1], keyword);
      var line := lines[|lines| - 1];
      if !IsMarkerLine(line, keyword) then Success(rows)
      else
        var tokens := Tokens(line);
        if |tokens| < 9 then Failure(MarkerTooShort) else Success(rows + [(tokens[2], tokens[8])])
  }

  const Int32Min: int := -0x8000_0000
  const Int32Max: int := 0x7fff_ffff

  /** A token converted to a 32-bit integer. */
  function ToInt32(s: string): (r: Result<int, LoadError>)
    ensures r.Success? <==> ParseInt(s).Some? && Int32Min <= ParseInt(s).value <= Int32Max
    ensures r.Success? ==> r.value == ParseInt(s).value
  {
    match ParseInt(s)
    case None => Failure(CountNotInteger)
    case Some(v) => if Int32Min <= v <= Int32Max then Success(v) else Failure(CountOutOfRange)
  }

  function ConvertRows(rows: seq<(string, string)>): Result<seq<(int, int)>, LoadError>
    decreases |rows|
  {
    if |rows| == 0 then Success([])
    else
      var table :- ConvertRows(rows[..|rows| - 1]);
      var event :- ToInt32(rows[|rows| - 1].0);
      var count :- ToInt32(rows[|rows| - 1].1);
      Success(table + [(event, count)])
  }

  /** The (event, declared count) table built from the marker lines. */
  function IndexPass(lines: seq<string>, keyword: string): Result<seq<(int, int)>, LoadError> {
    var rows :- MarkerTokens(lines, keyword);
    ConvertRows(rows)
  }

  // ---------------------------------------------------------------------
  // Window arithmetic

  /** `sum of (count + 1)` over the table rows `lo .. hi - 1`: the lines
      those events take, marker included. */
  function SumCounts(table: seq<(int, int)>, lo: int, hi: int): int
    requires 0 <= lo <= hi <= |table|
    decreases hi
  {
    if hi == lo then 0 else SumCounts(table, lo, hi - 1) + table[hi - 1].1 + 1
  }

  /** Lines before the first event read: the file header and every earlier
      event. */
  function SkipBefore(start: int, table: seq<(int, int)>): (r: Result<int, LoadError>)
    ensures start <= 0 ==> r == Success(1)
    ensures 0 < start <= |table| ==> r == Success(1 + SumCounts(table, 0, start))
    ensures start > |table| ==> r == Failure(EventIndexOutOfRange)
  {
    if start <= 0 then Success(1)
    else if start > |table| then Failure(EventIndexOutOfRange)
    else Success(1 + SumCounts(table, 0, start))
  }

  function NumSkipLines(sel: Selection, table: seq<(int, int)>): Result<int, LoadError> {
    match sel
    case AllEvents => Success(1)
    case Single(k) => SkipBefore(k, table)
    case Range(a, _) => SkipBefore(a, table)
    case WrongType => Failure(EventsWrongType)
  }

  /** Lines to read: every line of the requested events plus the line that
      closes the last of them. */
  function NumReadLines(sel: Selection, table: seq<(int, int)>): Result<int, LoadError>
    requires SelectionValid(sel)
  {
    match sel
    case AllEvents =>
      if |table| == 0 then Failure(EventIndexOutOfRange)
      else Success(SumCounts(table, 0, |table|) + 1)
    case Single(k) =>
      if k >= |table| then Failure(EventIndexOutOfRange) else Success(table[k].1 + 1 + 1)
    case Range(a, b) =>
      if b >= |table| then Failure(EventIndexOutOfRange) else Success(SumCounts(table, a, b + 1) + 1)
    case WrongType => Failure(EventsWrongType)
  }

  /** A single event reads like the range from it to itself, and a full load
      like the range over the whole table. */
  lemma ReadLinesAgree(table: seq<(int, int)>, k: nat)
    ensures NumReadLines(Single(k), table) == NumReadLines(Range(k, k), table)
    ensures |table| > 0 ==> NumReadLines(AllEvents, table) == NumReadLines(Range(0, |table| - 1), table)
  {
    if k < |table| {
      assert SumCounts(table, k, k + 1) == table[k].1 + 1;
    }
  }

  // ---------------------------------------------------------------------
  // Filters

  /** The external cut functions: name, argument, event to filtered event. */
  type Cut = (string, Value, seq<Record>) -> seq<Record>

  const CutNames: set<string> := {
    "charged_particles", "uncharged_particles", "strange_particles", "particle_species",
    "remove_particle_species", "lower_event_energy_cut", "pt_cut", "rapidity_cut",
    "pseudorapidity_cut", "spatial_rapidity_cut", "multiplicity_cut", "particle_status"
  }

  /** The cuts switched on by a true flag rather than taking an argument. */
  predicate Switched(name: string) {
    name in {"charged_particles", "uncharged_particles", "strange_particles"}
  }

  /** The cuts of a filter mapping, applied in the mapping's order. */
  function ApplyCuts(event: seq<Record>, entries: seq<(string, Value)>, cut: Cut): Result<seq<Record>, LoadError>
    decreases |entries|
  {
    if |entries| == 0 then Success(event)
    else
      var filtered :- ApplyCuts(event, entries[..|entries| - 1], cut);
      var name := entries[|entries| - 1].0;
      var arg := entries[|entries| - 1].1;
      if name !in CutNames then Failure(UnknownCut)
      else if Switched(name) && !Truthy(arg) then Success(filtered)
      else Success(cut(name, arg, filtered))
  }

  /** A filter option that is no mapping, or an empty one, leaves the event. */
  function ApplyFilters(event: seq<Record>, filters: Value, cut: Cut): Result<seq<Record>, LoadError> {
    if !filters.VDict? || |filters.entries| == 0 then Success(event)
    else ApplyCuts(event, filters.entries, cut)
  }

  /** A filter mapping fails exactly when one of its names is not a cut. */
  lemma {:induction false} ApplyCutsFails(event: seq<Record>, entries: seq<(string, Value)>, cut: Cut)
    ensures ApplyCuts(event, entries, cut).Failure? <==> exists k :: 0 <= k < |entries| && entries[k].0 !in CutNames
    ensures ApplyCuts(event, entries, cut).Failure? ==> ApplyCuts(event, entries, cut).error == UnknownCut
    decreases |entries|
  {
    if |entries| > 0 {
      var init := entries[..|entries| - 1];
      ApplyCutsFails(event, init, cut);
      assert forall k :: 0 <= k < |init| ==> init[k] == entries[k];
      if exists k :: 0 <= k < |entries| && entries[k].0 !in CutNames {
        var k :| 0 <= k < |entries| && entries[k].0 !in CutNames;
        if k < |init| {
          assert init[k].0 !in CutNames;
        }
      }
    }
  }

  // ---------------------------------------------------------------------
  // The bounded read

  /** The events closed so far, the particles of the open event, and the
      metadata table as rows are rewritten. */
  datatype ReadState = ReadState(events: seq<seq<Record>>, data: seq<Record>, table: seq<(int, int)>)

  /** What the read loop depends on besides its state. `parseTokens` says
      whether particle tokens are converted to numbers before construction;
      `rowOffset` is the table row of the first event read. */
  datatype ReadContext = ReadContext(
    firstHeader: int,
    filters: Option<Value>,
    rowOffset: nat,
    cut: Cut,
    lib: Lib,
    parseTokens: bool)

  function ParseAll(tokens: seq<string>): (r: Result<seq<real>, LoadError>)
    ensures r.Success? ==> |r.value| == |tokens|
    decreases |tokens|
  {
    if |tokens| == 0 then Success([])
    else
      var init :- ParseAll(tokens[..|tokens| - 1]);
      match ParseFloat(tokens[|tokens| - 1])
      case None => Failure(TokenNotNumber)
      case Some(x) => Success(init + [x])
  }

  /** A particle line turned into a particle. Handing the string tokens to
      the constructor unconverted fails: a row of the wrong length is
      "corrupted", and any other reaches the mass computation, which squares
      the energy token, a string. */
  function ParticleFromTokens(tokens: seq<string>, lib: Lib, parseTokens: bool): Result<Record, LoadError> {
    if !parseTokens then
      if |tokens| != 7 then Failure(ParticleRow(Corrupted)) else Failure(StringArithmetic)
    else
      var row :- ParseAll(tokens);
      match FromArray(Jetscape, row, lib)
      case Failure(e) => Failure(ParticleRow(e))
      case Success(p) => Success(p)
  }

  /** Closing the open event: with a filter option the event is filtered and
      its metadata row rewritten to (event number, filtered length). */
  function CloseEvent(s: ReadState, ctx: ReadContext): Result<ReadState, LoadError> {
    if ctx.filters.None? then Success(s.(events := s.events + [s.data]))
    else
      var filtered :- ApplyFilters(s.data, ctx.filters.value, ctx.cut);
      var row := ctx.rowOffset + |s.events|;
      if row >= |s.table| then Failure(MetadataRowOutOfRange)
      else Success(ReadState(s.events + [filtered], filtered, s.table[row := (row + 1, |filtered|)]))
  }

  predicate IsTerminator(line: string) {
    Contains(line, "#") && Contains(line, "sigmaGen")
  }

  predicate IsEventHeader(line: string) {
    Contains(line, "Event") && Contains(line, "weight")
  }

  /** One line of the read window, `i` its position in the window. */
  function Step(s: ReadState, i: nat, line: string, ctx: ReadContext): Result<ReadState, LoadError> {
    if IsTerminator(line) then CloseEvent(s, ctx)
    else if i == 0 && !Contains(line, "#") && !Contains(line, "weight") then Failure(FirstLineNotHeader)
    else if IsEventHeader(line) then
      var tokens := Tokens(line);
      if |tokens| < 3 then Failure(HeaderTooShort)
      else match ParseInt(tokens[2])
        case None => Failure(HeaderNotInteger)
        case Some(k) =>
          if k == ctx.firstHeader then Success(s)
          else
            var closed :- CloseEvent(s, ctx);
            Success(closed.(data := []))
    else
      var p :- ParticleFromTokens(Tokens(line), ctx.lib, ctx.parseTokens);
      Success(s.(data := s.data + [p]))
  }

  /** What one line of the window does to the read state. */
  type StepFn = (ReadState, nat, string) -> Result<ReadState, LoadError>

  /** The step of a load's read loop. */
  function StepOf(ctx: ReadContext): StepFn {
    (s: ReadState, i: nat, line: string) => Step(s, i, line, ctx)
  }

  /** The read loop over lines that start at window position `base`. */
  function Run(lines: seq<string>, base: nat, step: StepFn, s0: ReadState): Result<ReadState, LoadError>
    decreases |lines|
  {
    if |lines| == 0 then Success(s0)
    else
      var s :- Run(lines[..|lines| - 1], base, step, s0);
      step(s, base + |lines| - 1, lines[|lines| - 1])
  }

  /** The lines left after skipping `skip` of them (skipping past the end
      leaves none). */
  function Remaining(lines: seq<string>, skip: int): seq<string> {
    if skip <= 0 then lines else if skip >= |lines| then [] else lines[skip..]
  }

  /** Reading `n` lines: running out of lines first is an error. */
  function ReadWindow(rest: seq<string>, n: int, step: StepFn, s0: ReadState): Result<ReadState, LoadError> {
    if n <= 0 then Success(s0)
    else if n <= |rest| then Run(rest[..n], 0, step, s0)
    else
      var _ :- Run(rest, 0, step, s0);
      Failure(UnexpectedEndOfFile)
  }

  datatype Loaded = Loaded(events: seq<seq<Record>>, numEvents: int, metadata: seq<(int, int)>)

  /** The metadata and event count after the read: a full load must have
      found as many events as the index; a single event keeps its row; a
      range keeps its slice. The source compares only the events found
      with the count, and slices a range without a bounds check. The check
      of the count against the table and the two out-of-range failures here
      cannot happen in a load: the index pass makes the count the table's
      length, and `NumReadLines` has already rejected the same bounds. */
  function Reconcile(sel: Selection, events: seq<seq<Record>>, table: seq<(int, int)>, numEvents: int)
    : (r: Result<Loaded, LoadError>)
    ensures r.Success? ==> r.value.events == events
    ensures r.Success? ==> |r.value.metadata| == r.value.numEvents
    ensures sel.AllEvents? ==> (r.Success? <==> |events| == numEvents == |table|)
  {
    match sel
    case AllEvents =>
      if |events| != numEvents || numEvents != |table| then Failure(EventCountMismatch)
      else Success(Loaded(events, numEvents, table))
    case Single(k) =>
      if 0 <= k < |table| then Success(Loaded(events, 1, [table[k]])) else Failure(EventIndexOutOfRange)
    case Range(a, b) =>
      if 0 <= a <= b < |table| then Success(Loaded(events, b - a + 1, table[a..b + 1]))
      else Failure(EventIndexOutOfRange)
    case WrongType => Failure(EventsWrongType)
  }

  /** The read context a load builds; `offsetFixed` chooses the table row
      a filtered event's count is written to. */
  function ContextFor(kwargs: map<string, Value>, lib: Lib, cut: Cut, parseTokens: bool, offsetFixed: bool)
    : ReadContext
    requires SelectionValid(SelectionOf(kwargs))
  {
    var sel := SelectionOf(kwargs);
    ReadContext(
      FirstHeader(sel),
      if "filters" in kwargs then Some(kwargs["filters"]) else None,
      if offsetFixed then StartOf(sel) else 0,
      cut, lib, parseTokens)
  }

  /** Everything the load does after the index pass. */
  function ReadEventsWith(lines: seq<string>, kwargs: map<string, Value>, table: seq<(int, int)>, numEvents: int,
                          lib: Lib, cut: Cut, parseTokens: bool, offsetFixed: bool): Result<Loaded, LoadError>
    requires SelectionValid(SelectionOf(kwargs))
  {
    var sel := SelectionOf(kwargs);
    var n :- NumReadLines(sel, table);
    var skip :- NumSkipLines(sel, table);
    var ctx := ContextFor(kwargs, lib, cut, parseTokens, offsetFixed);
    var s :- ReadWindow(Remaining(lines, skip), n, StepOf(ctx), ReadState([], [], table));
    Reconcile(sel, s.events, s.table, numEvents)
  }

  function LoadWith(lines: seq<string>, kwargs: map<string, Value>, current: ParticleType,
                    lib: Lib, cut: Cut, parseTokens: bool, offsetFixed: bool): Result<Loaded, LoadError>
  {
    var pt :- ValidateOptions(kwargs, current);
    var table :- IndexPass(lines, Keyword(pt));
    ValidatedSelection(kwargs, current);
    ReadEventsWith(lines, kwargs, table, |table|, lib, cut, parseTokens, offsetFixed)
  }

  /** The load with particle tokens converted to numbers and filtered counts
      written to the rows of the events they belong to. */
  function LoadFile(lines: seq<string>, kwargs: map<string, Value>, current: ParticleType, lib: Lib, cut: Cut)
    : Result<Loaded, LoadError>
  {
    LoadWith(lines, kwargs, current, lib, cut, true, true)
  }

  function ReadEvents(lines: seq<string>, kwargs: map<string, Value>, table: seq<(int, int)>, numEvents: int,
                      lib: Lib, cut: Cut): Result<Loaded, LoadError>
    requires SelectionValid(SelectionOf(kwargs))
  {
    ReadEventsWith(lines, kwargs, table, numEvents, lib, cut, true, true)
  }

  // ---------------------------------------------------------------------
  // sigmaGen

  /** The last line, found by scanning back from the end for a newline; a
      file of fewer than two lines has none before its final newline. */
  function LastLine(lines: seq<string>): Result<string, LoadError> {
    if |lines| < 2 then Failure(LastLineUnreadable) else Success(lines[|lines| - 1])
  }

  /** The words that parse as floats, as numbers, in order. */
  function Numbers(words: seq<string>): seq<real>
    decreases |words|
  {
    if |words| == 0 then []
    else
      var init := Numbers(words[..|words| - 1]);
      match ParseFloat(words[|words| - 1])
      case None => init
      case Some(x) => init + [x]
  }

  /** The first two numbers of the last line: the cross section and its
      error. */
  function SigmaGen(lines: seq<string>): (r: Result<(real, real), LoadError>)
  {
    var last :- LastLine(lines);
    var numbers := Numbers(Words(last));
    if |numbers| < 2 then Failure(TooFewNumbers) else Success((numbers[0], numbers[1]))
  }

  /** The numbers of a prefix of the words start the numbers of all of them. */
  lemma {:induction false} NumbersPrefix(words: seq<string>, i: nat)
    requires i <= |words|
    ensures Numbers(words[..i]) <= Numbers(words)
    decreases |words| - i
  {
    if i < |words| {
      NumbersPrefix(words, i + 1);
      assert words[..i + 1][..i] == words[..i];
    } else {
      assert words[..i] == words;
    }
  }

  /** The labels of the terminal line are not numbers. */
  lemma LabelsAreNotNumbers()
    ensures ParseFloat("#") == None
    ensures ParseFloat("sigmaGen") == None
    ensures ParseFloat("sigmaErr") == None
  {
    assert DigitRun("#", 0) == 0;
    assert DigitRun("sigmaGen", 0) == 0;
    assert DigitRun("sigmaErr", 0) == 0;
  }

  /** The numbers of some words and one more. */
  lemma NumbersSnoc(words: seq<string>, i: nat, x: Option<real>)
    requires i < |words| && ParseFloat(words[i]) == x
    ensures Numbers(words[..i + 1]) == Numbers(words[..i]) + (if x.Some? then [x.value] else [])
  {
    assert words[..i + 1][..i] == words[..i];
  }

  /** A label, a number, a label and a number give those two numbers. */
  lemma NumbersOfLabelled(ws: seq<string>, a: real, b: real)
    requires |ws| == 5
    requires ParseFloat(ws[0]) == None && ParseFloat(ws[1]) == None && ParseFloat(ws[3]) == None
    requires ParseFloat(ws[2]) == Some(a) && ParseFloat(ws[4]) == Some(b)
    ensures Numbers(ws) == [a, b]
  {
    assert ws[..0] == [];
    NumbersSnoc(ws, 0, None);
    NumbersSnoc(ws, 1, None);
    NumbersSnoc(ws, 2, Some(a));
    NumbersSnoc(ws, 3, None);
    NumbersSnoc(ws, 4, Some(b));
    assert ws[..5] == ws;
  }

  /** The file-terminal line `# sigmaGen x sigmaErr y` yields the values of
      the two number tokens, whatever float spelling they have: the labels
      are not numbers. */
  lemma SigmaGenOfTerminalLine(lines: seq<string>, xs: string, ys: string, x: real, y: real)
    requires |lines| >= 2
    requires Words(lines[|lines| - 1]) == ["#", "sigmaGen", xs, "sigmaErr", ys]
    requires ParseFloat(xs) == Some(x) && ParseFloat(ys) == Some(y)
    ensures SigmaGen(lines) == Success((x, y))
  {
    LabelsAreNotNumbers();
    NumbersOfLabelled(Words(lines[|lines| - 1]), x, y);
  }

  /** In particular, integer values written in decimal are read back. */
  lemma SigmaGenOfIntegerLine(lines: seq<string>, x: int, y: int)
    requires |lines| >= 2
    requires Words(lines[|lines| - 1]) == ["#", "sigmaGen", IntToString(x), "sigmaErr", IntToString(y)]
    ensures SigmaGen(lines) == Success((x as real, y as real))
  {
    IntToStringParsesAsFloat(x);
    IntToStringParsesAsFloat(y);
    SigmaGenOfTerminalLine(lines, IntToString(x), IntToString(y), x as real, y as real);
  }

  /** A last line with fewer than two numbers raises IndexError, and so does
      a file too short to have a last line before its final newline. */
  lemma SigmaGenTooFew(lines: seq<string>)
    requires |lines| < 2 || |Numbers(Words(lines[|lines| - 1]))| < 2
    ensures SigmaGen(lines).Failure?
    ensures ExceptionOf(SigmaGen(lines).error) in {IndexError, OSError}
  {
  }

  /** Only the marker keyword of the particle type distinguishes the two
      particle types' index passes. */
  lemma KeywordsDiffer()
    ensures Keyword(Hadrons) != Keyword(Partons)
  {
    assert Keyword(Hadrons)[2] != Keyword(Partons)[2];
  }

  // ---------------------------------------------------------------------
  // The loader object

  class JetscapeLoader {
    const path: string
    const lines: seq<string>
    var particleType: ParticleType
    var keyword: Option<string>
    var options: map<string, Value>
    var numOutputPerEvent: seq<(int, int)>
    var numEvents: int

    /** Once set, the marker keyword is the one of the particle type: `load`
        sets both together. */
    predicate KeywordMatchesType()
      reads this
    {
      keyword.Some? ==> keyword == Some(Keyword(particleType))
    }

    /** A loader on a `.dat` path, set to hadrons. */
    constructor(path: string, lines: seq<string>)
      requires Contains(path, ".dat")
      ensures this.path == path && this.lines == lines
      ensures particleType == Hadrons && keyword == None && options == map[]
      ensures numOutputPerEvent == [] && numEvents == 0
      ensures KeywordMatchesType()
    {
      this.path := path;
      this.lines := lines;
      particleType := Hadrons;
      keyword := None;
      options := map[];
      numOutputPerEvent := [];
      numEvents := 0;
    }

    /** The constructor with its path check. */
    static method New(path: string, lines: seq<string>) returns (r: Result<JetscapeLoader, LoadError>)
      ensures r.Success? <==> Contains(path, ".dat")
      ensures r.Failure? ==> r.error == FileNotFound
      ensures r.Success? ==>
        && fresh(r.value) && r.value.path == path && r.value.lines == lines
        && r.value.particleType == Hadrons && r.value.keyword == None
        && r.value.KeywordMatchesType()
    {
      if !Contains(path, ".dat") {
        return Failure(FileNotFound);
      }
      var loader := new JetscapeLoader(path, lines);
      return Success(loader);
    }

    /** The marker keyword; before a load it is not set and reading it
        raises AttributeError. */
    function ParticleTypeDefiningString(): (r: Result<string, LoadError>)
      reads this
      ensures r.Success? <==> keyword.Some?
      ensures keyword.None? ==> r == Failure(NotLoaded)
      ensures KeywordMatchesType() && r.Success? ==> r.value == Keyword(particleType)
      ensures KeywordMatchesType() && r.Success? ==> r.value in {"N_hadrons", "N_partons"}
    {
      if keyword.None? then Failure(NotLoaded) else Success(keyword.value)
    }

    function GetParticleType(): (r: string)
      reads this
      ensures r == "hadron" <==> particleType == Hadrons
      ensures r == "parton" <==> particleType == Partons
    {
      ParticleTypeName(particleType)
    }

    /** The index pass: one (event, count) row per marker line. */
    method SetNumOutputPerEvent() returns (err: Option<LoadError>)
      requires keyword.Some?
      modifies this
      ensures var spec := IndexPass(lines, old(keyword).value);
        && (spec.Failure? ==> err == Some(spec.error) && numOutputPerEvent == old(numOutputPerEvent)
                              && numEvents == old(numEvents))
        && (spec.Success? ==> err.None? && numOutputPerEvent == spec.value && numEvents == |spec.value|)
      ensures particleType == old(particleType) && keyword == old(keyword) && options == old(options)
    {
      var kw := keyword.value;
      var rows: seq<(string, string)> := [];
      var i := 0;
      while i < |lines|
        invariant 0 <= i <= |lines|
        invariant MarkerTokens(lines[..i], kw) == Success(rows)
      {
        assert lines[..i + 1][..i] == lines[..i];
        var line := lines[i];
        if IsMarkerLine(line, kw) {
          var tokens := Tokens(line);
          if |tokens| < 9 {
            MarkerTokensFailureSticks(lines, kw, i + 1);
            return Some(MarkerTooShort);
          }
          rows := rows + [(tokens[2], tokens[8])];
        }
        i := i + 1;
      }
      assert lines[..i] == lines;
      var table: seq<(int, int)> := [];
      var j := 0;
      while j < |rows|
        invariant 0 <= j <= |rows|
        invariant ConvertRows(rows[..j]) == Success(table)
      {
        assert rows[..j + 1][..j] == rows[..j];
        var event := ToInt32(rows[j].0);
        if event.Failure? {
          ConvertFailureSticks(rows, j + 1);
          return Some(event.error);
        }
        var count := ToInt32(rows[j].1);
        if count.Failure? {
          ConvertFailureSticks(rows, j + 1);
          return Some(count.error);
        }
        table := table + [(event.value, count.value)];
        j := j + 1;
      }
      assert rows[..j] == rows;
      numOutputPerEvent := table;
      numEvents := |table|;
      return None;
    }

    /** The number of lines before the first event read. */
    method GetNumSkipLines() returns (r: Result<int, LoadError>)
      ensures r == NumSkipLines(SelectionOf(options), numOutputPerEvent)
    {
      var sel := SelectionOf(options);
      var start: int;
      match sel {
        case AllEvents => return Success(1);
        case WrongType => return Failure(EventsWrongType);
        case Single(k) => start := k;
        case Range(a, _) => start := a;
      }
      if start <= 0 {
        return Success(1);
      }
      var cumulated := 0;
      var i := 0;
      while i < start
        invariant 0 <= i <= start && i <= |numOutputPerEvent|
        invariant cumulated == SumCounts(numOutputPerEvent, 0, i)
      {
        if i >= |numOutputPerEvent| {
          return Failure(EventIndexOutOfRange);
        }
        cumulated := cumulated + numOutputPerEvent[i].1 + 1;
        i := i + 1;
      }
      return Success(1 + cumulated);
    }

    /** The number of lines to read: the requested events and the closing
        line. */
    method GetNumReadLines() returns (r: Result<int, LoadError>)
      requires SelectionValid(SelectionOf(options))
      ensures r == NumReadLines(SelectionOf(options), numOutputPerEvent)
    {
      var table := numOutputPerEvent;
      var cumulated := 0;
      match SelectionOf(options) {
        case AllEvents =>
          if |table| == 0 {
            return Failure(EventIndexOutOfRange);
          }
          var i := 0;
          while i < |table|
            invariant 0 <= i <= |table|
            invariant cumulated == SumCounts(table, 0, i) - i
          {
            cumulated := cumulated + table[i].1;
            i := i + 1;
          }
          cumulated := cumulated + |table|;
        case Single(k) =>
          if k >= |table| {
            return Failure(EventIndexOutOfRange);
          }
          cumulated := table[k].1 + 1;
        case Range(a, b) =>
          var i := a;
          while i < b + 1
            invariant a <= i <= b + 1
            invariant i == a || i <= |table|
            invariant i <= |table| ==> cumulated == SumCounts(table, a, i)
          {
            if i >= |table| {
              return Failure(EventIndexOutOfRange);
            }
            cumulated := cumulated + table[i].1 + 1;
            i := i + 1;
          }
        case WrongType =>
          return Failure(EventsWrongType);
      }
      return Success(cumulated + 1);
    }

    /** The filters of one event, applied in the order of the mapping. */
    static method ApplyKwargsFilters(event: seq<Record>, filters: Value, cut: Cut)
      returns (r: Result<seq<Record>, LoadError>)
      ensures r == ApplyFilters(event, filters, cut)
    {
      if !filters.VDict? || |filters.entries| == 0 {
        return Success(event);
      }
      var entries := filters.entries;
      var current := event;
      var i := 0;
      while i < |entries|
        invariant 0 <= i <= |entries|
        invariant ApplyCuts(event, entries[..i], cut) == Success(current)
      {
        assert entries[..i + 1][..i] == entries[..i];
        var name := entries[i].0;
        var arg := entries[i].1;
        if name !in CutNames {
          CutFailureSticks(event, entries, cut, i + 1);
          return Failure(UnknownCut);
        }
        if !Switched(name) || Truthy(arg) {
          current := cut(name, arg, current);
        }
        i := i + 1;
      }
      assert entries[..i] == entries;
      return Success(current);
    }

    /** The read loop: `n` lines of the window, one step per line. */
    static method ReadLoop(rest: seq<string>, n: int, ctx: ReadContext, s0: ReadState)
      returns (r: Result<ReadState, LoadError>)
      ensures r == ReadWindow(rest, n, StepOf(ctx), s0)
    {
      var state := s0;
      var i := 0;
      while i < n
        invariant 0 <= i <= (if n > 0 then n else 0)
        invariant i <= |rest|
        invariant Run(rest[..i], 0, StepOf(ctx), s0) == Success(state)
      {
        if i >= |rest| {
          assert rest[..i] == rest;
          return Failure(UnexpectedEndOfFile);
        }
        assert rest[..i + 1][..i] == rest[..i];
        var next := Step(state, i, rest[i], ctx);
        if next.Failure? {
          RunFailureSticks(rest, StepOf(ctx), s0, i + 1, n);
          return Failure(next.error);
        }
        state := next.value;
        i := i + 1;
      }
      if n <= 0 {
        assert rest[..0] == [];
      }
      return Success(state);
    }

    /** The bounded read, then the metadata and event count it leaves. */
    method SetParticleList(lib: Lib, cut: Cut) returns (r: Result<seq<seq<Record>>, LoadError>)
      requires SelectionValid(SelectionOf(options))
      modifies this
      ensures particleType == old(particleType) && keyword == old(keyword) && options == old(options)
      ensures var spec := ReadEvents(lines, options, old(numOutputPerEvent), old(numEvents), lib, cut);
        && (spec.Failure? ==> r == Failure(spec.error))
        && (spec.Success? ==>
              && r == Success(spec.value.events)
              && numOutputPerEvent == spec.value.metadata && numEvents == spec.value.numEvents)
      ensures r.Failure? ==> numOutputPerEvent == old(numOutputPerEvent) && numEvents == old(numEvents)
    {
      var sel := SelectionOf(options);
      var n := GetNumReadLines();
      if n.Failure? {
        return Failure(n.error);
      }
      var skip := GetNumSkipLines();
      if skip.Failure? {
        return Failure(skip.error);
      }
      var ctx := ContextFor(options, lib, cut, true, true);
      var state := ReadLoop(Remaining(lines, skip.value), n.value, ctx, ReadState([], [], numOutputPerEvent));
      if state.Failure? {
        return Failure(state.error);
      }
      var reconciled := Reconcile(sel, state.value.events, state.value.table, numEvents);
      if reconciled.Failure? {
        return Failure(reconciled.error);
      }
      numOutputPerEvent := reconciled.value.metadata;
      numEvents := reconciled.value.numEvents;
      return Success(state.value.events);
    }

    /** `load`: validation, the index pass, then the bounded read. */
    method Load(kwargs: map<string, Value>, lib: Lib, cut: Cut) returns (r: Result<Loaded, LoadError>)
      modifies this
      ensures r == LoadFile(lines, kwargs, old(particleType), lib, cut)
      ensures options == kwargs
      ensures particleType == match ValidateOptions(kwargs, old(particleType))
        case Success(pt) => pt
        case Failure(_) => old(particleType)
      ensures r.Success? ==>
        && numOutputPerEvent == r.value.metadata && numEvents == r.value.numEvents
        && keyword == Some(Keyword(particleType))
      ensures ValidateOptions(kwargs, old(particleType)).Failure? ==>
        && keyword == old(keyword)
        && numOutputPerEvent == old(numOutputPerEvent) && numEvents == old(numEvents)
      ensures ValidateOptions(kwargs, old(particleType)).Success? ==> keyword == Some(Keyword(particleType))
      ensures old(KeywordMatchesType()) ==> KeywordMatchesType()
      ensures r.Failure? && ValidateOptions(kwargs, old(particleType)).Success? ==>
        var index := IndexPass(lines, Keyword(particleType));
        if index.Success? then numOutputPerEvent == index.value && numEvents == |index.value|
        else numOutputPerEvent == old(numOutputPerEvent) && numEvents == old(numEvents)
    {
      options := kwargs;
      var validated := ValidateOptions(kwargs, particleType);
      if validated.Failure? {
        return Failure(validated.error);
      }
      particleType := validated.value;
      keyword := Some(Keyword(particleType));
      var err := SetNumOutputPerEvent();
      if err.Some? {
        return Failure(err.value);
      }
      ValidatedSelection(kwargs, old(particleType));
      var events := SetParticleList(lib, cut);
      if events.Failure? {
        return Failure(events.error);
      }
      return Success(Loaded(events.value, numEvents, numOutputPerEvent));
    }

    /** `get_sigmaGen`: the first two words of the last line that parse as
        floats. */
    method GetSigmaGen() returns (r: Result<(real, real), LoadError>)
      ensures r == SigmaGen(lines)
    {
      var last := LastLine(lines);
      if last.Failure? {
        return Failure(last.error);
      }
      var words := Words(last.value);
      var numbers: seq<real> := [];
      var i := 0;
      while i < |words| && |numbers| < 2
        invariant 0 <= i <= |words|
        invariant numbers == Numbers(words[..i])
      {
        assert words[..i + 1][..i] == words[..i];
        var x := ParseFloat(words[i]);
        if x.Some? {
          numbers := numbers + [x.value];
        }
        i := i + 1;
      }
      NumbersPrefix(words, i);
      if i == |words| {
        assert words[..i] == words;
      }
      if |numbers| < 2 {
        return Failure(TooFewNumbers);
      }
      return Success((numbers[0], numbers[1]));
    }
  }

  // ---------------------------------------------------------------------
  // Failure propagation of the back-recursive passes

  lemma {:induction false} MarkerTokensFailureSticks(lines: seq<string>, keyword: string, i: nat)
    requires i <= |lines|
    requires MarkerTokens(lines[..i], keyword).Failure?
    ensures MarkerTokens(lines, keyword) == MarkerTokens(lines[..i], keyword)
    decreases |lines| - i
  {
    if i < |lines| {
      assert lines[..i + 1][..i] == lines[..i];
      MarkerTokensFailureSticks(lines, keyword, i + 1);
    } else {
      assert lines[..i] == lines;
    }
  }

  lemma {:induction false} ConvertFailureSticks(rows: seq<(string, string)>, i: nat)
    requires i <= |rows|
    requires ConvertRows(rows[..i]).Failure?
    ensures ConvertRows(rows) == ConvertRows(rows[..i])
    decreases |rows| - i
  {
    if i < |rows| {
      assert rows[..i + 1][..i] == rows[..i];
      ConvertFailureSticks(rows, i + 1);
    } else {
      assert rows[..i] == rows;
    }
  }

  lemma {:induction false} CutFailureSticks(event: seq<Record>, entries: seq<(string, Value)>, cut: Cut, i: nat)
    requires i <= |entries|
    requires ApplyCuts(event, entries[..i], cut).Failure?
    ensures ApplyCuts(event, entries, cut) == ApplyCuts(event, entries[..i], cut)
    decreases |entries| - i
  {
    if i < |entries| {
      assert entries[..i + 1][..i] == entries[..i];
      CutFailureSticks(event, entries, cut, i + 1);
    } else {
      assert entries[..i] == entries;
    }
  }

  /** A failure within the first `i` lines of the window is the failure of
      the whole read. */
  lemma {:induction false} RunFailureSticks(rest: seq<string>, step: StepFn, s0: ReadState, i: nat, n: int)
    requires i <= |rest| && i <= n
    requires Run(rest[..i], 0, step, s0).Failure?
    ensures ReadWindow(rest, n, step, s0) == Failure(Run(rest[..i], 0, step, s0).error)
  {
    if n <= |rest| {
      assert rest[..n][..i] == rest[..i];
      RunPrefixFailure(rest[..n], step, s0, i);
    } else {
      RunPrefixFailure(rest, step, s0, i);
    }
  }

  lemma {:induction false} RunPrefixFailure(lines: seq<string>, step: StepFn, s0: ReadState, i: nat)
    requires i <= |lines|
    requires Run(lines[..i], 0, step, s0).Failure?
    ensures Run(lines, 0, step, s0) == Run(lines[..i], 0, step, s0)
    decreases |lines| - i
  {
    if i < |lines| {
      assert lines[..i + 1][..i] == lines[..i];
      RunPrefixFailure(lines, step, s0, i + 1);
    } else {
      assert lines[..i] == lines;
    }
  }
}
