/** Well-formed JETSCAPE files and what the loader makes of them: a header
    line, one block per event (a marker line announcing the event number and
    its particle count, then that many particle lines) and a closing
    `sigmaGen` line. */
module JetscapeFiles {
  import opened Common
  import opened Text
  import opened Particles
  import opened JetscapeLoading

  /** One event of a file: the number its marker announces, the marker line
      and the particle lines. */
  datatype Block = Block(number: int, marker: string, lines: seq<string>, particles: seq<Record>)

  /** The lines of consecutive blocks. */
  function Body(blocks: seq<Block>): seq<string>
    decreases |blocks|
  {
    if |blocks| == 0 then []
    else Body(blocks[..|blocks| - 1]) + ([blocks[|blocks| - 1].marker] + blocks[|blocks| - 1].lines)
  }

  /** The (event number, particle count) table the markers announce. */
  function Table(blocks: seq<Block>): (table: seq<(int, int)>)
    ensures |table| == |blocks|
    decreases |blocks|
  {
    if |blocks| == 0 then []
    else
      var last := blocks[|blocks| - 1];
      Table(blocks[..|blocks| - 1]) + [(last.number, |last.lines|)]
  }

  /** A marker line of the particle type `keyword` announcing `count`
      particles. */
  predicate MarkerOk(line: string, count: int, keyword: string) {
    && IsMarkerLine(line, keyword)
    && IsEventHeader(line)
    && !Contains(line, "sigmaGen")
    && |Tokens(line)| >= 9
    && Tokens(line)[8] == IntToString(count)
  }

  /** The event number a marker line carries, as a 32-bit integer. */
  predicate Announces(line: string, number: int) {
    && |Tokens(line)| >= 3
    && Tokens(line)[2] == IntToString(number)
    && number <= Int32Max
  }

  /** A line the read loop takes for a particle line: no comment sign and
      no event header. */
  predicate DataLineOk(line: string) {
    !Contains(line, "#") && !IsEventHeader(line)
  }

  /** Particle lines, each converting to its particle. */
  predicate DataLines(lines: seq<string>, particles: seq<Record>, lib: Lib) {
    && |lines| == |particles|
    && (forall k :: 0 <= k < |lines| ==> DataLineOk(lines[k]))
    && (forall k :: 0 <= k < |lines| ==> ParticleFromTokens(Tokens(lines[k]), lib, true) == Success(particles[k]))
  }

  /** A block whose marker announces its number and the count of its
      particle lines. */
  predicate BlockOk(b: Block, keyword: string, lib: Lib) {
    && MarkerOk(b.marker, |b.lines|, keyword)
    && Announces(b.marker, b.number)
    && |b.lines| <= Int32Max
    && DataLines(b.lines, b.particles, lib)
  }

  /** Consecutive well-formed blocks numbered `first + 1`, `first + 2`, … */
  predicate BlocksFrom(blocks: seq<Block>, first: int, keyword: string, lib: Lib)
    decreases |blocks|
  {
    if |blocks| == 0 then true
    else
      && BlocksFrom(blocks[..|blocks| - 1], first, keyword, lib)
      && BlockOk(blocks[|blocks| - 1], keyword, lib)
      && blocks[|blocks| - 1].number == first + |blocks|
  }

  lemma {:induction false} BlocksFromAt(blocks: seq<Block>, first: int, keyword: string, lib: Lib, j: nat)
    requires BlocksFrom(blocks, first, keyword, lib) && j < |blocks|
    ensures BlockOk(blocks[j], keyword, lib) && blocks[j].number == first + j + 1
    decreases |blocks|
  {
    if j < |blocks| - 1 {
      BlocksFromAt(blocks[..|blocks| - 1], first, keyword, lib, j);
    }
  }

  /** `lines` is `body` between a first and a last line. */
  predicate Framed(lines: seq<string>, first: string, body: seq<string>, last: string) {
    && |lines| == |body| + 2
    && lines[0] == first
    && lines[|lines| - 1] == last
    && lines[1..|lines| - 1] == body
  }

  lemma {:induction false} FramedLines(lines: seq<string>, first: string, body: seq<string>, last: string)
    requires Framed(lines, first, body, last)
    ensures lines == [first] + body + [last]
  {
    assert forall k :: 1 <= k < |lines| - 1 ==> lines[k] == lines[1..|lines| - 1][k - 1];
  }

  /** A header line, blocks announcing the events 1, 2, … in order, and the
      closing `sigmaGen` line. */
  predicate WellFormed(lines: seq<string>, header: string, blocks: seq<Block>, terminator: string,
                       keyword: string, lib: Lib)
  {
    && Framed(lines, header, Body(blocks), terminator)
    && !IsMarkerLine(header, keyword)
    && IsTerminator(terminator)
    && !IsMarkerLine(terminator, keyword)
    && BlocksFrom(blocks, 0, keyword, lib)
  }

  /** The events the blocks stand for, one particle list per block. */
  function EventsOf(blocks: seq<Block>): (events: seq<seq<Record>>)
    ensures |events| == |blocks|
    decreases |blocks|
  {
    if |blocks| == 0 then []
    else EventsOf(blocks[..|blocks| - 1]) + [blocks[|blocks| - 1].particles]
  }

  // ---------------------------------------------------------------------
  // The layout of the body

  lemma {:induction false} BodyAppend(a: seq<Block>, b: seq<Block>)
    ensures Body(a + b) == Body(a) + Body(b)
    decreases |b|
  {
    if |b| == 0 {
      assert a + b == a;
    } else {
      var init := b[..|b| - 1];
      var last := b[|b| - 1];
      assert (a + b)[..|a + b| - 1] == a + init;
      BodyAppend(a, init);
      assert Body(a + b) == Body(a + init) + [last.marker] + last.lines;
    }
  }

  /** The lines of the events `lo .. hi - 1` number the counts of those
      events plus one marker each. */
  lemma {:induction false} BodyLength(blocks: seq<Block>, lo: nat, hi: nat)
    requires lo <= hi <= |blocks|
    ensures |Body(blocks[lo..hi])| == SumCounts(Table(blocks), lo, hi)
    decreases hi
  {
    if hi > lo {
      BodyLength(blocks, lo, hi - 1);
      TableAt(blocks, hi - 1);
      assert blocks[lo..hi][..hi - lo - 1] == blocks[lo..hi - 1];
    }
  }

  lemma {:induction false} BodySingle(b: Block)
    ensures Body([b]) == [b.marker] + b.lines
  {
    assert [b][..0] == [];
    assert Body([b][..0]) == [];
  }

  /** A non-empty body starts with the first marker. */
  lemma {:induction false} BodyStart(blocks: seq<Block>)
    requires |blocks| > 0
    ensures Body(blocks) == [blocks[0].marker] + blocks[0].lines + Body(blocks[1..])
  {
    assert blocks == [blocks[0]] + blocks[1..];
    BodyAppend([blocks[0]], blocks[1..]);
    BodySingle(blocks[0]);
  }

  /** The row of an event in the table. */
  lemma {:induction false} TableAt(blocks: seq<Block>, j: nat)
    requires j < |blocks|
    ensures Table(blocks)[j] == (blocks[j].number, |blocks[j].lines|)
    decreases |blocks|
  {
    if j < |blocks| - 1 {
      TableAt(blocks[..|blocks| - 1], j);
    }
  }

  lemma {:induction false} EventsOfAppend(a: seq<Block>, b: seq<Block>)
    ensures EventsOf(a + b) == EventsOf(a) + EventsOf(b)
    decreases |b|
  {
    if |b| == 0 {
      assert a + b == a;
    } else {
      var init := b[..|b| - 1];
      assert (a + b)[..|a + b| - 1] == a + init;
      assert (a + b)[|a + b| - 1] == b[|b| - 1];
      EventsOfAppend(a, init);
    }
  }

  /** The event of a block. */
  lemma {:induction false} EventsOfAt(blocks: seq<Block>, j: nat)
    requires j < |blocks|
    ensures EventsOf(blocks)[j] == blocks[j].particles
    decreases |blocks|
  {
    if j < |blocks| - 1 {
      EventsOfAt(blocks[..|blocks| - 1], j);
    }
  }

  // ---------------------------------------------------------------------
  // The index pass on a well-formed file

  function MarkerRowOf(line: string): (string, string) {
    var tokens := Tokens(line);
    if |tokens| >= 9 then (tokens[2], tokens[8]) else ("", "")
  }

  /** The token pairs the markers of the blocks carry. */
  function TokenRows(blocks: seq<Block>): seq<(string, string)>
    decreases |blocks|
  {
    if |blocks| == 0 then []
    else TokenRows(blocks[..|blocks| - 1]) + [MarkerRowOf(blocks[|blocks| - 1].marker)]
  }

  lemma {:induction false} MarkerTokensAppend(a: seq<string>, b: seq<string>, keyword: string)
    requires MarkerTokens(a, keyword).Success? && MarkerTokens(b, keyword).Success?
    ensures MarkerTokens(a + b, keyword) == Success(MarkerTokens(a, keyword).value + MarkerTokens(b, keyword).value)
    decreases |b|
  {
    if |b| == 0 {
      assert a + b == a;
      assert MarkerTokens(a, keyword).value + [] == MarkerTokens(a, keyword).value;
    } else {
      var init := b[..|b| - 1];
      assert (a + b)[..|a + b| - 1] == a + init;
      assert (a + b)[|a + b| - 1] == b[|b| - 1];
      assert MarkerTokens(init, keyword).Success?;
      MarkerTokensAppend(a, init, keyword);
      var ra := MarkerTokens(a, keyword).value;
      var ri := MarkerTokens(init, keyword).value;
      var line := b[|b| - 1];
      if IsMarkerLine(line, keyword) {
        var row := (Tokens(line)[2], Tokens(line)[8]);
        assert ra + ri + [row] == ra + (ri + [row]);
      }
    }
  }

  lemma {:induction false} MarkerTokensPush(prefix: seq<string>, line: string, keyword: string)
    requires MarkerTokens(prefix, keyword).Success?
    requires IsMarkerLine(line, keyword) && |Tokens(line)| >= 9
    ensures MarkerTokens(prefix + [line], keyword) == Success(MarkerTokens(prefix, keyword).value + [MarkerRowOf(line)])
  {
    assert (prefix + [line])[..|prefix|] == prefix;
  }

  /** Lines without a comment sign carry no marker. */
  lemma {:induction false} NoMarkersInData(lines: seq<string>, keyword: string)
    requires forall k :: 0 <= k < |lines| ==> !Contains(lines[k], "#")
    ensures MarkerTokens(lines, keyword) == Success([])
    decreases |lines|
  {
    if |lines| > 0 {
      var n := |lines|;
      assert forall k :: 0 <= k < n - 1 ==> lines[..n - 1][k] == lines[k];
      NoMarkersInData(lines[..n - 1], keyword);
      assert !Contains(lines[n - 1], "#");
    }
  }

  /** The lines of one block yield the token pair of its marker. */
  lemma {:induction false} BlockTokens(b: Block, keyword: string, lib: Lib)
    requires BlockOk(b, keyword, lib)
    ensures MarkerTokens([b.marker] + b.lines, keyword) == Success([MarkerRowOf(b.marker)])
  {
    assert [b.marker][..0] == [];
    assert MarkerTokens([], keyword) == Success([]);
    assert IsMarkerLine(b.marker, keyword) && |Tokens(b.marker)| >= 9;
    assert [] + [MarkerRowOf(b.marker)] == [MarkerRowOf(b.marker)];
    assert MarkerTokens([b.marker], keyword) == Success([MarkerRowOf(b.marker)]);
    assert forall k :: 0 <= k < |b.lines| ==> DataLineOk(b.lines[k]);
    NoMarkersInData(b.lines, keyword);
    MarkerTokensAppend([b.marker], b.lines, keyword);
    assert [MarkerRowOf(b.marker)] + [] == [MarkerRowOf(b.marker)];
  }

  lemma {:induction false} MarkerTokensOfBody(blocks: seq<Block>, first: nat, keyword: string, lib: Lib)
    requires BlocksFrom(blocks, first, keyword, lib)
    ensures MarkerTokens(Body(blocks), keyword) == Success(TokenRows(blocks))
    decreases |blocks|
  {
    if |blocks| > 0 {
      var init := blocks[..|blocks| - 1];
      var last := blocks[|blocks| - 1];
      MarkerTokensOfBody(init, first, keyword, lib);
      BlockTokens(last, keyword, lib);
      MarkerTokensAppend(Body(init), [last.marker] + last.lines, keyword);
    }
  }

  lemma {:induction false} ConvertPush(rows: seq<(string, string)>, row: (string, string), number: nat, count: nat)
    requires ConvertRows(rows).Success?
    requires ParseInt(row.0) == Some(number) && ParseInt(row.1) == Some(count)
    requires number <= Int32Max && count <= Int32Max
    ensures ConvertRows(rows + [row]) == Success(ConvertRows(rows).value + [(number, count)])
  {
    assert (rows + [row])[..|rows|] == rows;
  }

  lemma {:induction false} ConvertTokenRows(blocks: seq<Block>, first: nat, keyword: string, lib: Lib)
    requires BlocksFrom(blocks, first, keyword, lib)
    ensures ConvertRows(TokenRows(blocks)) == Success(Table(blocks))
    decreases |blocks|
  {
    if |blocks| > 0 {
      var n := |blocks|;
      var init := blocks[..n - 1];
      var last := blocks[n - 1];
      ConvertTokenRows(init, first, keyword, lib);
      assert TokenRows(blocks) == TokenRows(init) + [MarkerRowOf(last.marker)];
      IntToStringRoundTrip(last.number);
      IntToStringRoundTrip(|last.lines|);
      ConvertPush(TokenRows(init), MarkerRowOf(last.marker), last.number, |last.lines|);
      assert Table(blocks) == Table(init) + [(last.number, |last.lines|)];
    } else {
      assert Table(blocks) == [];
    }
  }

  /** The index pass of a well-formed file yields the announced table. */
  lemma {:induction false} IndexPassWellFormed(lines: seq<string>, header: string, blocks: seq<Block>, terminator: string,
                            keyword: string, lib: Lib)
    requires WellFormed(lines, header, blocks, terminator, keyword, lib)
    ensures IndexPass(lines, keyword) == Success(Table(blocks))
  {
    FramedLines(lines, header, Body(blocks), terminator);
    assert [header][..0] == [];
    assert MarkerTokens([header], keyword) == Success([]);
    assert [terminator][..0] == [];
    assert MarkerTokens([terminator], keyword) == Success([]);
    MarkerTokensOfBody(blocks, 0, keyword, lib);
    MarkerTokensAppend([header], Body(blocks), keyword);
    MarkerTokensAppend([header] + Body(blocks), [terminator], keyword);
    assert [] + TokenRows(blocks) + [] == TokenRows(blocks);
    ConvertTokenRows(blocks, 0, keyword, lib);
  }


  // ---------------------------------------------------------------------
  // The read loop on blocks, for any step that treats the lines of a
  // window the way the loader's step treats a well-formed file

  /** Past the first window position, the step adds the particle of each
      particle line to the open event. */
  ghost predicate ReadsParticles(step: StepFn, lines: seq<string>, particles: seq<Record>) {
    && |lines| == |particles|
    && forall s: ReadState, i: nat, k :: 1 <= i && 0 <= k < |lines| ==>
         step(s, i, lines[k]) == Success(s.(data := s.data + [particles[k]]))
  }

  /** The step passes over `line`. */
  ghost predicate Opens(step: StepFn, line: string) {
    forall s: ReadState, i: nat :: step(s, i, line) == Success(s)
  }

  /** The step closes the open event on `line` and starts an empty one. */
  ghost predicate Closes(step: StepFn, line: string) {
    forall s: ReadState, i: nat :: step(s, i, line) == Success(ReadState(s.events + [s.data], [], s.table))
  }

  /** The step closes the open event on `line`, leaving the table alone. */
  ghost predicate Ends(step: StepFn, line: string) {
    forall s: ReadState, i: nat ::
      step(s, i, line).Success? && step(s, i, line).value.events == s.events + [s.data]
      && step(s, i, line).value.table == s.table
  }

  /** Over the blocks of a window, the step opens the event of the first
      block, closes the open event on every later marker and reads every
      particle line. */
  ghost predicate ReadsWindow(step: StepFn, window: seq<Block>) {
    && |window| > 0
    && Opens(step, window[0].marker)
    && (forall j :: 0 <= j < |window| ==> ReadsParticles(step, window[j].lines, window[j].particles))
    && (forall j :: 0 < j < |window| ==> Closes(step, window[j].marker))
  }

  lemma {:induction false} RunAppend(a: seq<string>, b: seq<string>, base: nat, step: StepFn, s0: ReadState)
    ensures Run(a + b, base, step, s0) ==
      if Run(a, base, step, s0).Failure? then Run(a, base, step, s0)
      else Run(b, base + |a|, step, Run(a, base, step, s0).value)
    decreases |b|
  {
    if |b| == 0 {
      assert a + b == a;
    } else {
      var init := b[..|b| - 1];
      assert (a + b)[..|a + b| - 1] == a + init;
      assert (a + b)[|a + b| - 1] == b[|b| - 1];
      RunAppend(a, init, base, step, s0);
    }
  }

  lemma {:induction false} RunSingle(line: string, base: nat, step: StepFn, s: ReadState)
    ensures Run([line], base, step, s) == step(s, base, line)
  {
    assert [line][..0] == [];
  }

  /** Particle lines add their particles to the open event. */
  lemma {:induction false} DataRun(lines: seq<string>, particles: seq<Record>, base: nat, step: StepFn, s: ReadState)
    requires base >= 1 && ReadsParticles(step, lines, particles)
    ensures Run(lines, base, step, s) == Success(s.(data := s.data + particles))
    decreases |lines|
  {
    if |lines| == 0 {
      assert s.data + particles == s.data;
    } else {
      var n := |lines|;
      var init := lines[..n - 1];
      var front := particles[..n - 1];
      assert forall k :: 0 <= k < n - 1 ==> init[k] == lines[k] && front[k] == particles[k];
      DataRun(init, front, base, step, s);
      var mid := s.(data := s.data + front);
      assert step(mid, base + n - 1, lines[n - 1]) == Success(mid.(data := mid.data + [particles[n - 1]]));
      assert particles == front + [particles[n - 1]];
      assert s.data + front + [particles[n - 1]] == s.data + particles;
    }
  }

  /** A block after the first one of the window closes the event before it
      and reads its own particles. */
  lemma {:induction false} BlockCloses(b: Block, base: nat, step: StepFn, s: ReadState)
    requires Closes(step, b.marker) && ReadsParticles(step, b.lines, b.particles)
    ensures Run([b.marker] + b.lines, base, step, s) ==
      Success(ReadState(s.events + [s.data], b.particles, s.table))
  {
    RunAppend([b.marker], b.lines, base, step, s);
    RunSingle(b.marker, base, step, s);
    var closed := ReadState(s.events + [s.data], [], s.table);
    DataRun(b.lines, b.particles, base + 1, step, closed);
    assert [] + b.particles == b.particles;
  }

  /** The first block of the window opens the event that is read. */
  lemma {:induction false} BlockOpens(b: Block, base: nat, step: StepFn, s: ReadState)
    requires Opens(step, b.marker) && ReadsParticles(step, b.lines, b.particles)
    ensures Run([b.marker] + b.lines, base, step, s) == Success(s.(data := s.data + b.particles))
  {
    RunAppend([b.marker], b.lines, base, step, s);
    RunSingle(b.marker, base, step, s);
    DataRun(b.lines, b.particles, base + 1, step, s);
  }

  /** The line that closes the window of events up to `b`: the next marker,
      or the terminator after the last event. */
  function Closing(blocks: seq<Block>, b: nat, terminator: string): string {
    if b + 1 < |blocks| then blocks[b + 1].marker else terminator
  }

  /** The blocks of a window but its last still form a window. */
  lemma {:induction false} ReadsWindowInit(step: StepFn, window: seq<Block>)
    requires ReadsWindow(step, window) && |window| > 1
    ensures ReadsWindow(step, window[..|window| - 1])
  {
    var init := window[..|window| - 1];
    assert forall j :: 0 <= j < |init| ==> init[j] == window[j];
  }

  /** One more closing block after a run over the body of `init`. */
  lemma {:induction false} RunBodyLast(init: seq<Block>, last: Block, step: StepFn, s0: ReadState, before: ReadState)
    requires Run(Body(init), 0, step, s0) == Success(before)
    requires Closes(step, last.marker) && ReadsParticles(step, last.lines, last.particles)
    ensures Run(Body(init + [last]), 0, step, s0) ==
      Success(ReadState(before.events + [before.data], last.particles, before.table))
  {
    assert (init + [last])[..|init|] == init;
    assert Body(init + [last]) == Body(init) + ([last.marker] + last.lines);
    RunAppend(Body(init), [last.marker] + last.lines, 0, step, s0);
    BlockCloses(last, |Body(init)|, step, before);
  }

  /** Reading the blocks of a window without the closing line leaves the
      last of their events open. */
  lemma {:induction false} WindowBody(window: seq<Block>, step: StepFn, table: seq<(int, int)>)
    requires ReadsWindow(step, window)
    ensures Run(Body(window), 0, step, ReadState([], [], table)) == Success(ReadState(
      EventsOf(window[..|window| - 1]), window[|window| - 1].particles, table))
    decreases |window|
  {
    var s0 := ReadState([], [], table);
    var n := |window|;
    var last := window[n - 1];
    if n == 1 {
      assert window == [last];
      BodySingle(last);
      BlockOpens(last, 0, step, s0);
      assert s0.data + last.particles == last.particles;
      assert window[..0] == [];
    } else {
      var init := window[..n - 1];
      ReadsWindowInit(step, window);
      WindowBody(init, step, table);
      var before := ReadState(EventsOf(init[..n - 2]), init[n - 2].particles, table);
      assert window == init + [last];
      RunBodyLast(init, last, step, s0, before);
      assert EventsOf(init) == EventsOf(init[..n - 2]) + [init[n - 2].particles];
    }
  }

  /** Reading the blocks of a window and the closing line yields exactly
      their events, with the table untouched. */
  lemma {:induction false} WindowRun(window: seq<Block>, closing: string, step: StepFn, table: seq<(int, int)>)
    requires ReadsWindow(step, window) && Ends(step, closing)
    ensures var r := Run(Body(window) + [closing], 0, step, ReadState([], [], table));
      r.Success? && r.value.events == EventsOf(window) && r.value.table == table
  {
    var s0 := ReadState([], [], table);
    var body := Body(window);
    WindowBody(window, step, table);
    var s2 := ReadState(EventsOf(window[..|window| - 1]), window[|window| - 1].particles, table);
    RunAppend(body, [closing], 0, step, s0);
    RunSingle(closing, |body|, step, s2);
  }

  lemma {:induction false} Regroup<T>(a: seq<T>, b: seq<T>, c: seq<T>, d: seq<T>)
    ensures a + (b + c) + d == (a + b) + (c + d)
  {
  }

  lemma {:induction false} DropPrefix<T>(p: seq<T>, q: seq<T>)
    ensures (p + q)[|p|..] == q
  {
  }

  lemma {:induction false} TakeOneMore<T>(p: seq<T>, q: seq<T>)
    requires |q| > 0
    ensures (p + q)[..|p| + 1] == p + [q[0]]
  {
  }

  /** What is left of a well-formed file once the header and the events
      before `a` are skipped. */
  lemma {:induction false} RemainingAfter(lines: seq<string>, header: string, blocks: seq<Block>, terminator: string, a: nat)
    requires lines == [header] + Body(blocks) + [terminator]
    requires a <= |blocks|
    ensures Remaining(lines, 1 + SumCounts(Table(blocks), 0, a)) == Body(blocks[a..]) + [terminator]
  {
    var before := blocks[..a];
    var after := blocks[a..];
    assert blocks == before + after;
    BodyAppend(before, after);
    BodyLength(blocks, 0, a);
    assert blocks[0..a] == before;
    Regroup([header], Body(before), Body(after), [terminator]);
    DropPrefix([header] + Body(before), Body(after) + [terminator]);
  }

  /** The lines read for the events `a .. b`: their blocks and the closing
      line. */
  lemma {:induction false} WindowPrefix(blocks: seq<Block>, terminator: string, a: nat, b: nat)
    requires a <= b < |blocks|
    ensures var rest := Body(blocks[a..]) + [terminator];
      var n := SumCounts(Table(blocks), a, b + 1) + 1;
      0 < n <= |rest| && rest[..n] == Body(blocks[a..b + 1]) + [Closing(blocks, b, terminator)]
  {
    var window := blocks[a..b + 1];
    var after := blocks[b + 1..];
    SliceSplit(blocks, a, b + 1);
    BodyAppend(window, after);
    BodyLength(blocks, a, b + 1);
    Reassociate(Body(window), Body(after), [terminator]);
    ClosingStarts(blocks, b, terminator);
    TakeOneMore(Body(window), Body(after) + [terminator]);
  }

  /** What follows the window of events up to `b` starts with its closing
      line. */
  lemma {:induction false} ClosingStarts(blocks: seq<Block>, b: nat, terminator: string)
    requires b < |blocks|
    ensures (Body(blocks[b + 1..]) + [terminator])[0] == Closing(blocks, b, terminator)
  {
    if b + 1 < |blocks| {
      BodyStart(blocks[b + 1..]);
    } else {
      assert blocks[b + 1..] == [];
      assert Body(blocks[b + 1..]) == [];
    }
  }

  lemma {:induction false} SliceSplit<T>(s: seq<T>, i: nat, j: nat)
    requires i <= j <= |s|
    ensures s[i..] == s[i..j] + s[j..]
  {
  }

  /** Reading the window of the events `a .. b` of a well-formed file. */
  lemma {:induction false} ReadRange(lines: seq<string>, header: string, blocks: seq<Block>, terminator: string,
                  step: StepFn, a: nat, b: nat)
    requires lines == [header] + Body(blocks) + [terminator]
    requires a <= b < |blocks|
    requires ReadsWindow(step, blocks[a..b + 1]) && Ends(step, Closing(blocks, b, terminator))
    ensures var r := ReadWindow(
        Remaining(lines, 1 + SumCounts(Table(blocks), 0, a)),
        SumCounts(Table(blocks), a, b + 1) + 1,
        step,
        ReadState([], [], Table(blocks)));
      r.Success? && r.value.events == EventsOf(blocks[a..b + 1]) && r.value.table == Table(blocks)
  {
    RemainingAfter(lines, header, blocks, terminator, a);
    WindowPrefix(blocks, terminator, a, b);
    WindowRun(blocks[a..b + 1], Closing(blocks, b, terminator), step, Table(blocks));
  }

  // ---------------------------------------------------------------------
  // The loader's step on a well-formed file

  /** A particle line after the first window line adds its particle to the
      open event. */
  lemma {:induction false} DataStep(s: ReadState, i: nat, line: string, p: Record, ctx: ReadContext)
    requires i >= 1 && ctx.parseTokens && DataLineOk(line)
    requires ParticleFromTokens(Tokens(line), ctx.lib, true) == Success(p)
    ensures Step(s, i, line, ctx) == Success(s.(data := s.data + [p]))
  {
  }

  /** A marker announcing another event than the first one of the window
      closes the open event. */
  lemma {:induction false} MarkerCloses(s: ReadState, i: nat, line: string, number: int, count: int, keyword: string, ctx: ReadContext)
    requires ctx.filters.None?
    requires MarkerOk(line, count, keyword) && Announces(line, number) && number != ctx.firstHeader
    ensures Step(s, i, line, ctx) == Success(ReadState(s.events + [s.data], [], s.table))
  {
    IntToStringRoundTrip(number);
  }

  /** The marker of the first event of the window is passed over. */
  lemma {:induction false} MarkerOpens(s: ReadState, i: nat, line: string, count: int, keyword: string, ctx: ReadContext)
    requires MarkerOk(line, count, keyword) && Announces(line, ctx.firstHeader)
    ensures Step(s, i, line, ctx) == Success(s)
  {
    IntToStringRoundTrip(ctx.firstHeader);
  }

  /** Without filters, the terminator closes the open event. */
  lemma {:induction false} TerminatorEnds(line: string, ctx: ReadContext)
    requires ctx.filters.None? && IsTerminator(line)
    ensures Ends(StepOf(ctx), line)
  {
  }

  lemma {:induction false} BlockParticles(b: Block, keyword: string, ctx: ReadContext)
    requires ctx.parseTokens && BlockOk(b, keyword, ctx.lib)
    ensures ReadsParticles(StepOf(ctx), b.lines, b.particles)
  {
    forall s: ReadState, i: nat, k | 1 <= i && 0 <= k < |b.lines|
      ensures StepOf(ctx)(s, i, b.lines[k]) == Success(s.(data := s.data + [b.particles[k]]))
    {
      DataStep(s, i, b.lines[k], b.particles[k], ctx);
    }
  }

  lemma {:induction false} BlockCloseStep(b: Block, keyword: string, ctx: ReadContext)
    requires ctx.filters.None? && BlockOk(b, keyword, ctx.lib) && b.number != ctx.firstHeader
    ensures Closes(StepOf(ctx), b.marker)
  {
    forall s: ReadState, i: nat
      ensures StepOf(ctx)(s, i, b.marker) == Success(ReadState(s.events + [s.data], [], s.table))
    {
      MarkerCloses(s, i, b.marker, b.number, |b.lines|, keyword, ctx);
    }
  }

  lemma {:induction false} BlockOpenStep(b: Block, keyword: string, ctx: ReadContext)
    requires BlockOk(b, keyword, ctx.lib) && b.number == ctx.firstHeader
    ensures Opens(StepOf(ctx), b.marker)
  {
    forall s: ReadState, i: nat ensures StepOf(ctx)(s, i, b.marker) == Success(s) {
      MarkerOpens(s, i, b.marker, |b.lines|, keyword, ctx);
    }
  }

  /** What the loader's step does with the lines of the `k`-th block of a
      well-formed file when the window opens on event `a`. */
  lemma {:induction false} StepBlock(blocks: seq<Block>, keyword: string, ctx: ReadContext, a: nat, k: nat)
    requires BlocksFrom(blocks, 0, keyword, ctx.lib) && a <= k < |blocks|
    requires ctx.filters.None? && ctx.parseTokens && ctx.firstHeader == a + 1
    ensures ReadsParticles(StepOf(ctx), blocks[k].lines, blocks[k].particles)
    ensures k == a ==> Opens(StepOf(ctx), blocks[k].marker)
    ensures k > a ==> Closes(StepOf(ctx), blocks[k].marker)
  {
    BlocksFromAt(blocks, 0, keyword, ctx.lib, k);
    BlockParticles(blocks[k], keyword, ctx);
    if k == a {
      BlockOpenStep(blocks[k], keyword, ctx);
    } else {
      BlockCloseStep(blocks[k], keyword, ctx);
    }
  }

  /** The line after the last event read ends it. */
  lemma {:induction false} StepEnds(blocks: seq<Block>, terminator: string, keyword: string, ctx: ReadContext, a: nat, b: nat)
    requires BlocksFrom(blocks, 0, keyword, ctx.lib) && IsTerminator(terminator)
    requires ctx.filters.None? && ctx.parseTokens && ctx.firstHeader == a + 1 && a <= b < |blocks|
    ensures Ends(StepOf(ctx), Closing(blocks, b, terminator))
  {
    if b + 1 < |blocks| {
      StepBlock(blocks, keyword, ctx, a, b + 1);
      var line := blocks[b + 1].marker;
      forall s: ReadState, i: nat
        ensures StepOf(ctx)(s, i, line) == Success(ReadState(s.events + [s.data], [], s.table))
      {
      }
    } else {
      TerminatorEnds(terminator, ctx);
    }
  }

  lemma {:induction false} StepReadsWindow(blocks: seq<Block>, terminator: string, keyword: string, ctx: ReadContext, a: nat, b: nat)
    requires BlocksFrom(blocks, 0, keyword, ctx.lib) && IsTerminator(terminator)
    requires ctx.filters.None? && ctx.parseTokens && ctx.firstHeader == a + 1 && a <= b < |blocks|
    ensures ReadsWindow(StepOf(ctx), blocks[a..b + 1])
    ensures Ends(StepOf(ctx), Closing(blocks, b, terminator))
  {
    var window := blocks[a..b + 1];
    StepBlock(blocks, keyword, ctx, a, a);
    assert window[0] == blocks[a];
    forall j | 0 <= j < |window|
      ensures ReadsParticles(StepOf(ctx), window[j].lines, window[j].particles)
      ensures j > 0 ==> Closes(StepOf(ctx), window[j].marker)
    {
      StepBlock(blocks, keyword, ctx, a, a + j);
      assert window[j] == blocks[a + j];
    }
    StepEnds(blocks, terminator, keyword, ctx, a, b);
  }

  // ---------------------------------------------------------------------
  // Loads of a well-formed file

  /** Every event read has as many particles as its row announces. */
  predicate Consistent(loaded: Loaded) {
    && |loaded.events| == |loaded.metadata| == loaded.numEvents
    && forall j :: 0 <= j < |loaded.events| ==> |loaded.events[j]| == loaded.metadata[j].1
  }

  /** A load that validates and whose index pass succeeds reads with the
      table it indexed. */
  lemma {:induction false} LoadReadsIndexed(lines: seq<string>, kwargs: map<string, Value>, pt: ParticleType, lib: Lib, cut: Cut,
                         table: seq<(int, int)>)
    requires ValidateOptions(kwargs, pt) == Success(pt)
    requires IndexPass(lines, Keyword(pt)) == Success(table)
    ensures SelectionValid(SelectionOf(kwargs))
    ensures LoadFile(lines, kwargs, pt, lib, cut) == ReadEvents(lines, kwargs, table, |table|, lib, cut)
  {
    LoadWithReads(lines, kwargs, pt, lib, cut, true, true, table);
  }

  /** Reading the events `a .. b` of a well-formed file with the loader's
      step and no filters. */
  lemma {:induction false} ReadWellFormed(lines: seq<string>, header: string, blocks: seq<Block>, terminator: string,
                       keyword: string, ctx: ReadContext, a: nat, b: nat)
    requires WellFormed(lines, header, blocks, terminator, keyword, ctx.lib)
    requires a <= b < |blocks|
    requires ctx.filters.None? && ctx.parseTokens && ctx.firstHeader == a + 1
    ensures var r := ReadWindow(
        Remaining(lines, 1 + SumCounts(Table(blocks), 0, a)),
        SumCounts(Table(blocks), a, b + 1) + 1,
        StepOf(ctx),
        ReadState([], [], Table(blocks)));
      r.Success? && r.value.events == EventsOf(blocks[a..b + 1]) && r.value.table == Table(blocks)
  {
    FramedLines(lines, header, Body(blocks), terminator);
    StepReadsWindow(blocks, terminator, keyword, ctx, a, b);
    ReadRange(lines, header, blocks, terminator, StepOf(ctx), a, b);
  }

  /** The events of the blocks `a .. b` have the counts of their rows. */
  lemma {:induction false} EventsMatchTable(blocks: seq<Block>, keyword: string, lib: Lib, a: nat, b: nat)
    requires BlocksFrom(blocks, 0, keyword, lib) && a <= b < |blocks|
    ensures Consistent(Loaded(EventsOf(blocks[a..b + 1]), b - a + 1, Table(blocks)[a..b + 1]))
  {
    var events := EventsOf(blocks[a..b + 1]);
    var rows := Table(blocks)[a..b + 1];
    forall j | 0 <= j < |events|
      ensures |events[j]| == rows[j].1
    {
      EventsOfAt(blocks[a..b + 1], j);
      TableAt(blocks, a + j);
      BlocksFromAt(blocks, 0, keyword, lib, a + j);
    }
  }

  /** What the read after the index pass comes to once the window has been
      read. */
  lemma {:induction false} ReadEventsFrom(lines: seq<string>, kwargs: map<string, Value>, table: seq<(int, int)>, lib: Lib, cut: Cut,
                       n: int, skip: int, s: ReadState)
    requires SelectionValid(SelectionOf(kwargs))
    requires NumReadLines(SelectionOf(kwargs), table) == Success(n)
    requires NumSkipLines(SelectionOf(kwargs), table) == Success(skip)
    requires ReadWindow(Remaining(lines, skip), n, StepOf(ContextFor(kwargs, lib, cut, true, true)),
                        ReadState([], [], table)) == Success(s)
    ensures ReadEvents(lines, kwargs, table, |table|, lib, cut) == Reconcile(SelectionOf(kwargs), s.events, s.table, |table|)
  {
  }

  /** The selections of the events `a .. b` a load can make without
      filters. */
  predicate Selects(kwargs: map<string, Value>, a: nat, b: nat, count: nat) {
    && "filters" !in kwargs
    && match SelectionOf(kwargs)
       case AllEvents => a == 0 && b + 1 == count
       case Single(k) => k == a == b
       case Range(x, y) => x == a && y == b
       case WrongType => false
  }

  /** The window such a selection reads: every line of its events and the
      one after them, past the header and the events before. */
  lemma {:induction false} SelectedWindow(table: seq<(int, int)>, kwargs: map<string, Value>, lib: Lib, cut: Cut, a: nat, b: nat)
    requires a <= b < |table| && Selects(kwargs, a, b, |table|)
    ensures SelectionValid(SelectionOf(kwargs))
    ensures NumReadLines(SelectionOf(kwargs), table) == Success(SumCounts(table, a, b + 1) + 1)
    ensures NumSkipLines(SelectionOf(kwargs), table) == Success(1 + SumCounts(table, 0, a))
    ensures var ctx := ContextFor(kwargs, lib, cut, true, true);
      ctx.filters.None? && ctx.parseTokens && ctx.firstHeader == a + 1
  {
    var sel := SelectionOf(kwargs);
    if sel.Single? {
      assert SumCounts(table, a, a + 1) == table[a].1 + 1;
    } else if sel.AllEvents? {
      assert SumCounts(table, 0, 0) == 0;
    }
  }

  /** The read window of the selection `a .. b` reads `events` and leaves
      the table as the index pass made it. */
  predicate WindowReads(lines: seq<string>, kwargs: map<string, Value>, lib: Lib, cut: Cut,
                        table: seq<(int, int)>, events: seq<seq<Record>>, a: nat, b: nat)
    requires SelectionValid(SelectionOf(kwargs)) && a <= b < |table|
  {
    var r := ReadWindow(
      Remaining(lines, 1 + SumCounts(table, 0, a)),
      SumCounts(table, a, b + 1) + 1,
      StepOf(ContextFor(kwargs, lib, cut, true, true)),
      ReadState([], [], table));
    r.Success? && r.value.events == events && r.value.table == table
  }

  /** A selection of the events `a .. b` whose window reads them comes to
      those events. */
  lemma {:induction false} ReadSelectedWindow(lines: seq<string>, table: seq<(int, int)>, events: seq<seq<Record>>,
                                               kwargs: map<string, Value>, lib: Lib, cut: Cut, a: nat, b: nat)
    requires a <= b < |table| && Selects(kwargs, a, b, |table|)
    requires WindowReads(lines, kwargs, lib, cut, table, events, a, b)
    ensures ReadEvents(lines, kwargs, table, |table|, lib, cut) == Reconcile(SelectionOf(kwargs), events, table, |table|)
  {
    SelectedWindow(table, kwargs, lib, cut, a, b);
    var n := SumCounts(table, a, b + 1) + 1;
    var skip := 1 + SumCounts(table, 0, a);
    var r := ReadWindow(Remaining(lines, skip), n, StepOf(ContextFor(kwargs, lib, cut, true, true)), ReadState([], [], table));
    ReadEventsFrom(lines, kwargs, table, lib, cut, n, skip, r.value);
  }

  /** The outcome of a read of the events `a .. b` that found them: their
      count and their rows. */
  lemma {:induction false} ReconcileSelected(kwargs: map<string, Value>, table: seq<(int, int)>,
                                             events: seq<seq<Record>>, a: nat, b: nat)
    requires a <= b < |table| && Selects(kwargs, a, b, |table|) && |events| == b - a + 1
    ensures Reconcile(SelectionOf(kwargs), events, table, |table|) == Success(Loaded(events, b - a + 1, table[a..b + 1]))
  {
    match SelectionOf(kwargs)
    case AllEvents =>
      assert table[a..b + 1] == table;
    case Single(k) =>
      assert table[a..b + 1] == [table[k]];
    case Range(_, _) =>
  }

  /** What the index pass and the read window of a well-formed file find
      for a selection of the events `a .. b`. */
  lemma {:induction false} SelectedFacts(lines: seq<string>, header: string, blocks: seq<Block>, terminator: string,
                                         pt: ParticleType, kwargs: map<string, Value>, lib: Lib, cut: Cut, a: nat, b: nat)
    requires WellFormed(lines, header, blocks, terminator, Keyword(pt), lib)
    requires a <= b < |blocks| && Selects(kwargs, a, b, |blocks|)
    ensures IndexPass(lines, Keyword(pt)) == Success(Table(blocks))
    ensures SelectionValid(SelectionOf(kwargs))
    ensures |Table(blocks)| == |blocks| && |EventsOf(blocks[a..b + 1])| == b - a + 1
    ensures WindowReads(lines, kwargs, lib, cut, Table(blocks), EventsOf(blocks[a..b + 1]), a, b)
  {
    IndexPassWellFormed(lines, header, blocks, terminator, Keyword(pt), lib);
    SelectedWindow(Table(blocks), kwargs, lib, cut, a, b);
    ReadWellFormed(lines, header, blocks, terminator, Keyword(pt), ContextFor(kwargs, lib, cut, true, true), a, b);
  }

  /** A load that selects the events `a .. b` of a well-formed file reads
      them. */
  lemma {:induction false} LoadSelectedEvents(lines: seq<string>, header: string, blocks: seq<Block>, terminator: string,
                                              pt: ParticleType, kwargs: map<string, Value>, lib: Lib, cut: Cut, a: nat, b: nat)
    requires WellFormed(lines, header, blocks, terminator, Keyword(pt), lib)
    requires ValidateOptions(kwargs, pt) == Success(pt)
    requires a <= b < |blocks| && Selects(kwargs, a, b, |blocks|)
    ensures LoadFile(lines, kwargs, pt, lib, cut)
         == Success(Loaded(EventsOf(blocks[a..b + 1]), b - a + 1, Table(blocks)[a..b + 1]))
  {
    SelectedFacts(lines, header, blocks, terminator, pt, kwargs, lib, cut, a, b);
    ReadSelectedWindow(lines, Table(blocks), EventsOf(blocks[a..b + 1]), kwargs, lib, cut, a, b);
    ReconcileSelected(kwargs, Table(blocks), EventsOf(blocks[a..b + 1]), a, b);
    LoadReadsIndexed(lines, kwargs, pt, lib, cut, Table(blocks));
  }

  /** A load that selects the events `a .. b` of a well-formed file reads
      them, and they have the counts of their rows. */
  lemma {:induction false} LoadSelected(lines: seq<string>, header: string, blocks: seq<Block>, terminator: string,
                                        pt: ParticleType, kwargs: map<string, Value>, lib: Lib, cut: Cut, a: nat, b: nat)
    requires WellFormed(lines, header, blocks, terminator, Keyword(pt), lib)
    requires ValidateOptions(kwargs, pt) == Success(pt)
    requires a <= b < |blocks| && Selects(kwargs, a, b, |blocks|)
    ensures LoadFile(lines, kwargs, pt, lib, cut)
         == Success(Loaded(EventsOf(blocks[a..b + 1]), b - a + 1, Table(blocks)[a..b + 1]))
    ensures Consistent(Loaded(EventsOf(blocks[a..b + 1]), b - a + 1, Table(blocks)[a..b + 1]))
  {
    LoadSelectedEvents(lines, header, blocks, terminator, pt, kwargs, lib, cut, a, b);
    EventsMatchTable(blocks, Keyword(pt), lib, a, b);
  }

  /** The options of a range load validate and select the range. */
  lemma {:induction false} RangeOptions(pt: ParticleType, a: nat, b: nat)
    requires a <= b
    ensures var kwargs := map["events" := VTuple([VInt(a), VInt(b)])];
      && ValidateOptions(kwargs, pt) == Success(pt)
      && SelectionOf(kwargs) == Range(a, b)
      && Selects(kwargs, a, b, b + 1)
  {
    var kwargs := map["events" := VTuple([VInt(a), VInt(b)])];
    assert kwargs.Keys == {"events"};
  }

  /** The options of a single-event load validate and select the event. */
  lemma {:induction false} SingleOptions(pt: ParticleType, k: nat)
    ensures var kwargs := map["events" := VInt(k)];
      && ValidateOptions(kwargs, pt) == Success(pt)
      && SelectionOf(kwargs) == Single(k)
      && Selects(kwargs, k, k, k + 1)
  {
    var kwargs := map["events" := VInt(k)];
    assert kwargs.Keys == {"events"};
  }

  /** Loading a range of a well-formed file yields its events, their slice
      of the table and their count, and each event has its declared
      length. */
  lemma {:induction false} LoadRangeWellFormed(lines: seq<string>, header: string, blocks: seq<Block>, terminator: string,
                            pt: ParticleType, lib: Lib, cut: Cut, a: nat, b: nat)
    requires WellFormed(lines, header, blocks, terminator, Keyword(pt), lib)
    requires a <= b < |blocks|
    ensures var r := LoadFile(lines, map["events" := VTuple([VInt(a), VInt(b)])], pt, lib, cut);
      && r == Success(Loaded(EventsOf(blocks[a..b + 1]), b - a + 1, Table(blocks)[a..b + 1]))
      && Consistent(r.value)
  {
    RangeOptions(pt, a, b);
    LoadSelected(lines, header, blocks, terminator, pt, map["events" := VTuple([VInt(a), VInt(b)])], lib, cut, a, b);
  }


  /** Loading one event of a well-formed file yields it and its row. */
  lemma {:induction false} LoadSingleWellFormed(lines: seq<string>, header: string, blocks: seq<Block>, terminator: string,
                             pt: ParticleType, lib: Lib, cut: Cut, k: nat)
    requires WellFormed(lines, header, blocks, terminator, Keyword(pt), lib)
    requires k < |blocks|
    ensures var r := LoadFile(lines, map["events" := VInt(k)], pt, lib, cut);
      && r == Success(Loaded([blocks[k].particles], 1, [Table(blocks)[k]]))
      && Consistent(r.value)
  {
    SingleOptions(pt, k);
    LoadSelected(lines, header, blocks, terminator, pt, map["events" := VInt(k)], lib, cut, k, k);
    assert blocks[k..k + 1] == [blocks[k]];
    EventsOfAt(blocks[k..k + 1], 0);
    assert EventsOf(blocks[k..k + 1]) == [blocks[k].particles];
    assert Table(blocks)[k..k + 1] == [Table(blocks)[k]];
  }



  /** Loading a whole well-formed file yields every event and the table. */
  lemma {:induction false} LoadAllWellFormed(lines: seq<string>, header: string, blocks: seq<Block>, terminator: string,
                          pt: ParticleType, lib: Lib, cut: Cut)
    requires WellFormed(lines, header, blocks, terminator, Keyword(pt), lib)
    requires |blocks| > 0
    ensures var r := LoadFile(lines, map[], pt, lib, cut);
      && r == Success(Loaded(EventsOf(blocks), |blocks|, Table(blocks)))
      && Consistent(r.value)
  {
    var kwargs: map<string, Value> := map[];
    assert ValidateOptions(kwargs, pt) == Success(pt);
    LoadSelected(lines, header, blocks, terminator, pt, kwargs, lib, cut, 0, |blocks| - 1);
    assert blocks[0..|blocks|] == blocks;
    assert Table(blocks)[0..|blocks|] == Table(blocks);
  }


  /** A full load of a file without events fails with IndexError. */
  lemma {:induction false} LoadAllWithoutEvents(lines: seq<string>, header: string, terminator: string,
                             pt: ParticleType, lib: Lib, cut: Cut)
    requires WellFormed(lines, header, [], terminator, Keyword(pt), lib)
    ensures LoadFile(lines, map[], pt, lib, cut) == Failure(EventIndexOutOfRange)
    ensures ExceptionOf(EventIndexOutOfRange) == IndexError
  {
    var kwargs: map<string, Value> := map[];
    assert ValidateOptions(kwargs, pt) == Success(pt);
    IndexPassWellFormed(lines, header, [], terminator, Keyword(pt), lib);
    LoadReadsIndexed(lines, kwargs, pt, lib, cut, []);
  }

  /** Asking for an event at or beyond the event count fails with
      IndexError. */
  lemma {:induction false} LoadBeyondLastEvent(lines: seq<string>, header: string, blocks: seq<Block>, terminator: string,
                            pt: ParticleType, lib: Lib, cut: Cut, k: nat)
    requires WellFormed(lines, header, blocks, terminator, Keyword(pt), lib)
    requires k >= |blocks|
    ensures LoadFile(lines, map["events" := VInt(k)], pt, lib, cut) == Failure(EventIndexOutOfRange)
    ensures LoadFile(lines, map["events" := VTuple([VInt(0), VInt(k)])], pt, lib, cut) == Failure(EventIndexOutOfRange)
  {
    IndexPassWellFormed(lines, header, blocks, terminator, Keyword(pt), lib);
    var single := map["events" := VInt(k)];
    SingleOptions(pt, k);
    LoadReadsIndexed(lines, single, pt, lib, cut, Table(blocks));
    var range := map["events" := VTuple([VInt(0), VInt(k)])];
    RangeOptions(pt, 0, k);
    LoadReadsIndexed(lines, range, pt, lib, cut, Table(blocks));
  }

  // ---------------------------------------------------------------------
  // Particle lines handed over as strings

  /** A particle line that converts has the seven JETSCAPE columns. */
  lemma {:induction false} ParticleTokensCount(tokens: seq<string>, lib: Lib)
    requires ParticleFromTokens(tokens, lib, true).Success?
    ensures |tokens| == 7
  {
    var row := ParseAll(tokens).value;
    FromArrayLength(Jetscape, row, lib);
  }

  /** Handing the tokens of a particle line over unconverted fails with
      arithmetic on a string. */
  lemma {:induction false} StringTokensStep(s: ReadState, i: nat, line: string, p: Record, ctx: ReadContext)
    requires i >= 1 && !ctx.parseTokens && DataLineOk(line)
    requires ParticleFromTokens(Tokens(line), ctx.lib, true) == Success(p)
    ensures Step(s, i, line, ctx) == Failure(StringArithmetic)
  {
    ParticleTokensCount(Tokens(line), ctx.lib);
  }

  /** The window of a full load of a well-formed file: every line after the
      header. */
  lemma {:induction false} FullWindow(lines: seq<string>, header: string, blocks: seq<Block>, terminator: string,
                                      keyword: string, lib: Lib)
    requires WellFormed(lines, header, blocks, terminator, keyword, lib) && |blocks| > 0
    ensures var rest := Remaining(lines, 1 + SumCounts(Table(blocks), 0, 0));
      && rest == Body(blocks) + [terminator]
      && SumCounts(Table(blocks), 0, |blocks|) + 1 == |rest|
  {
    FramedLines(lines, header, Body(blocks), terminator);
    RemainingAfter(lines, header, blocks, terminator, 0);
    assert blocks[0..] == blocks;
    BodyLength(blocks, 0, |blocks|);
    assert blocks[0..|blocks|] == blocks;
  }

  /** The body of a file starts with the first marker and the first
      particle line. */
  lemma {:induction false} BodyOpening(blocks: seq<Block>, terminator: string)
    requires |blocks| > 0 && |blocks[0].lines| > 0
    ensures var rest := Body(blocks) + [terminator];
      |rest| > 2 && rest[0] == blocks[0].marker && rest[1] == blocks[0].lines[0]
  {
    BodyStart(blocks);
    Reassociate([blocks[0].marker] + blocks[0].lines, Body(blocks[1..]), [terminator]);
  }

  /** After validation and the index pass, a load with either conversion
      and either row choice is its read. */
  lemma {:induction false} LoadWithReads(lines: seq<string>, kwargs: map<string, Value>, pt: ParticleType, lib: Lib, cut: Cut,
                                         parseTokens: bool, offsetFixed: bool, table: seq<(int, int)>)
    requires ValidateOptions(kwargs, pt) == Success(pt)
    requires IndexPass(lines, Keyword(pt)) == Success(table)
    ensures SelectionValid(SelectionOf(kwargs))
    ensures LoadWith(lines, kwargs, pt, lib, cut, parseTokens, offsetFixed)
         == ReadEventsWith(lines, kwargs, table, |table|, lib, cut, parseTokens, offsetFixed)
  {
    ValidatedSelection(kwargs, pt);
  }

  /** The first two lines of a window that opens on a block whose first
      particle line is handed over as strings already fail the read. */
  lemma {:induction false} StringTokensRun(rest: seq<string>, n: int, b: Block, keyword: string, ctx: ReadContext, s0: ReadState)
    requires BlockOk(b, keyword, ctx.lib) && b.number == ctx.firstHeader && |b.lines| > 0
    requires !ctx.parseTokens
    requires 2 <= n <= |rest| && rest[0] == b.marker && rest[1] == b.lines[0]
    ensures ReadWindow(rest, n, StepOf(ctx), s0) == Failure(StringArithmetic)
  {
    var step := StepOf(ctx);
    var window := rest[..n];
    assert window[..2][..1] == [b.marker];
    MarkerOpens(s0, 0, b.marker, |b.lines|, keyword, ctx);
    RunSingle(b.marker, 0, step, s0);
    StringTokensStep(s0, 1, b.lines[0], b.particles[0], ctx);
    assert window[..2][1] == b.lines[0];
    RunPrefixFailure(window, step, s0, 2);
  }

  /** As written, a full load of a well-formed file with a particle line
      finds the index and then fails its read with TypeError: the string
      tokens reach the mass computation. */
  lemma {:induction false} LoadStringTokensAsWritten(lines: seq<string>, header: string, blocks: seq<Block>, terminator: string,
                                                     pt: ParticleType, lib: Lib, cut: Cut)
    requires WellFormed(lines, header, blocks, terminator, Keyword(pt), lib)
    requires |blocks| > 0 && |blocks[0].lines| > 0
    ensures IndexPass(lines, Keyword(pt)) == Success(Table(blocks))
    ensures ReadEventsWith(lines, map[], Table(blocks), |blocks|, lib, cut, false, true) == Failure(StringArithmetic)
    ensures ExceptionOf(StringArithmetic) == TypeError
  {
    var kwargs: map<string, Value> := map[];
    var table := Table(blocks);
    IndexPassWellFormed(lines, header, blocks, terminator, Keyword(pt), lib);
    FullWindowStringTokens(lines, header, blocks, terminator, Keyword(pt), ContextFor(kwargs, lib, cut, false, true));
  }

  /** The read window of a full load of a well-formed file fails on its
      first particle line when tokens are handed over as strings. */
  lemma {:induction false} FullWindowStringTokens(lines: seq<string>, header: string, blocks: seq<Block>, terminator: string,
                                                  keyword: string, ctx: ReadContext)
    requires WellFormed(lines, header, blocks, terminator, keyword, ctx.lib)
    requires |blocks| > 0 && |blocks[0].lines| > 0
    requires !ctx.parseTokens && ctx.firstHeader == 1
    ensures ReadWindow(Remaining(lines, 1 + SumCounts(Table(blocks), 0, 0)), SumCounts(Table(blocks), 0, |blocks|) + 1,
                       StepOf(ctx), ReadState([], [], Table(blocks))) == Failure(StringArithmetic)
  {
    FullWindow(lines, header, blocks, terminator, keyword, ctx.lib);
    BodyStringTokens(blocks, terminator, keyword, ctx, ReadState([], [], Table(blocks)));
  }

  /** Reading the body of a file with tokens handed over as strings fails
      on the first particle line. */
  lemma {:induction false} BodyStringTokens(blocks: seq<Block>, terminator: string, keyword: string, ctx: ReadContext, s0: ReadState)
    requires BlocksFrom(blocks, 0, keyword, ctx.lib)
    requires |blocks| > 0 && |blocks[0].lines| > 0
    requires !ctx.parseTokens && ctx.firstHeader == 1
    ensures var rest := Body(blocks) + [terminator];
      ReadWindow(rest, |rest|, StepOf(ctx), s0) == Failure(StringArithmetic)
  {
    BodyOpening(blocks, terminator);
    BlocksFromAt(blocks, 0, keyword, ctx.lib, 0);
    var rest := Body(blocks) + [terminator];
    StringTokensRun(rest, |rest|, blocks[0], keyword, ctx, s0);
  }

  // ---------------------------------------------------------------------
  // The table row a filtered event is written to

  /** As written, closing the first event of a window that starts at event
      `a > 0` writes its filtered count to row 0, the row of an event that
      was not read, and leaves row `a`, the row the load reports for that
      event, as the index pass found it. */
  lemma {:induction false} FilteredRowAsWritten(kwargs: map<string, Value>, lib: Lib, cut: Cut, s: ReadState, a: nat, b: nat)
    requires SelectionOf(kwargs) == Range(a, b) && 0 < a <= b && "filters" in kwargs
    requires s.events == [] && a < |s.table|
    requires ApplyFilters(s.data, kwargs["filters"], cut).Success?
    ensures SelectionValid(SelectionOf(kwargs))
    ensures var filtered := ApplyFilters(s.data, kwargs["filters"], cut).value;
      var r := CloseEvent(s, ContextFor(kwargs, lib, cut, true, false));
      && r.Success? && r.value.events == [filtered]
      && r.value.table[0] == (1, |filtered|) && r.value.table[a] == s.table[a]
  {
  }

  /** With the row offset by the window's start, closing the first event of
      the window writes its filtered count to its own row `a` and to no
      other. */
  lemma {:induction false} FilteredRowCorrected(kwargs: map<string, Value>, lib: Lib, cut: Cut, s: ReadState, a: nat, b: nat)
    requires SelectionOf(kwargs) == Range(a, b) && a <= b && "filters" in kwargs
    requires s.events == [] && a < |s.table|
    requires ApplyFilters(s.data, kwargs["filters"], cut).Success?
    ensures SelectionValid(SelectionOf(kwargs))
    ensures var filtered := ApplyFilters(s.data, kwargs["filters"], cut).value;
      var r := CloseEvent(s, ContextFor(kwargs, lib, cut, true, true));
      && r.Success? && r.value.events == [filtered]
      && r.value.table[a] == (a + 1, |filtered|)
      && (forall j :: 0 <= j < |s.table| && j != a ==> r.value.table[j] == s.table[j])
  {
  }
}
