/** Chained transcoding (Sources/Core/Processing/CompressionChaining.swift):
    each step transcodes the previous step's output into
    `chain-step-<index>.<extension>` inside the output directory, and the
    first failing step ends the chain with its error.

    The transcoder itself (`CompressionMigration.transcode`) is an audio
    conversion on the platform; here it is a parameter that either returns
    a path or fails with an error. Paths are strings; the output path of a
    step is kept as its parts (directory, step index, extension) and
    rendered by joining the directory and the file name with a slash. */
module CompressionChaining {
  import opened Ints
  import opened Wrappers
  import opened CompressionModels
  import Strings

  datatype ChainStep = ChainStep(format: Format, bitrateKbps: UInt32, sampleRate: real, channels: UInt32)

  /** The arguments of one `transcode` call. */
  datatype Request = Request(
    input: string,
    format: Format,
    bitrateKbps: UInt32,
    sampleRate: real,
    channels: UInt32,
    output: StepPath,
    dryRun: bool)

  /** The transcoder's answer to a request: the path it wrote, or an
      error. */
  type Transcoder<E> = Request -> Result<string, E>

  /** The chain's run: every request issued, in order, and the outputs or
      the error that ended it. */
  datatype ChainRun<E> = ChainRun(requests: seq<Request>, result: Result<seq<string>, E>)

  /** The extension switch inside `runChain`. */
  function ChainExtension(format: Format): (ext: string)
    ensures ext == FileExtension(format)
  {
    match format
    case Aac | Alac => "m4a"
    case Mp3 => "mp3"
    case Uncompressed => "caf"
  }

  const STEP_PREFIX: string := "chain-step-"

  function StepName(idx: nat, extension: string): string {
    STEP_PREFIX + Strings.Itos(idx) + "." + extension
  }

  /** `outputDirectory.appendingPathComponent("chain-step-<idx>.<ext>")`,
      kept as its parts. */
  datatype StepPath = StepPath(directory: string, index: nat, extension: string) {
    function Render(): string {
      directory + "/" + StepName(index, extension)
    }
  }

  function StepRequest(step: ChainStep, idx: nat, input: string, outputDirectory: string, dryRun: bool): Request {
    Request(input, step.format, step.bitrateKbps, step.sampleRate, step.channels,
            StepPath(outputDirectory, idx, ChainExtension(step.format)), dryRun)
  }

  /** The loop of `runChain` from step `idx` on, reading `input`. */
  function RunFrom<E>(steps: seq<ChainStep>, idx: nat, input: string, outputDirectory: string, dryRun: bool,
                      transcode: Transcoder<E>): (r: ChainRun<E>)
    requires idx <= |steps|
    ensures |r.requests| <= |steps| - idx
    ensures r.result.Success? ==> |r.result.value| == |r.requests| == |steps| - idx
    decreases |steps| - idx
  {
    if idx == |steps| then ChainRun([], Success([]))
    else
      var req := StepRequest(steps[idx], idx, input, outputDirectory, dryRun);
      var answer := transcode(req);
      if answer.Failure? then ChainRun([req], Failure(answer.error))
      else
        var rest := RunFrom(steps, idx + 1, answer.value, outputDirectory, dryRun, transcode);
        ChainRun([req] + rest.requests,
                 if rest.result.Success? then Success([answer.value] + rest.result.value) else Failure(rest.result.error))
  }

  /** `runChain(inputURL:steps:outputDirectory:dryRun:)`. */
  function RunChain<E>(input: string, steps: seq<ChainStep>, outputDirectory: string, dryRun: bool,
                       transcode: Transcoder<E>): (r: ChainRun<E>)
    ensures |r.requests| <= |steps|
    ensures r.result.Success? ==> |r.result.value| == |r.requests| == |steps|
  {
    RunFrom(steps, 0, input, outputDirectory, dryRun, transcode)
  }

  /** Every request is its step's request, for steps numbered from `idx`:
      the step's settings and `chain-step-<index>.<extension>` in the
      output directory. */
  predicate StepsRequested(requests: seq<Request>, steps: seq<ChainStep>, idx: nat, outputDirectory: string, dryRun: bool)
  {
    && idx + |requests| <= |steps|
    && forall k :: 0 <= k < |requests| ==>
         requests[k] == StepRequest(steps[idx + k], idx + k, requests[k].input, outputDirectory, dryRun)
  }

  /** The loop from `idx` on requests each step's own output file. */
  lemma {:induction false} RunFromRequests<E>(steps: seq<ChainStep>, idx: nat, input: string, outputDirectory: string,
                                             dryRun: bool, transcode: Transcoder<E>)
    requires idx <= |steps|
    ensures StepsRequested(RunFrom(steps, idx, input, outputDirectory, dryRun, transcode).requests, steps, idx,
                           outputDirectory, dryRun)
    decreases |steps| - idx
  {
    if idx < |steps| {
      var req := StepRequest(steps[idx], idx, input, outputDirectory, dryRun);
      var answer := transcode(req);
      if answer.Success? {
        RunFromRequests(steps, idx + 1, answer.value, outputDirectory, dryRun, transcode);
        var rest := RunFrom(steps, idx + 1, answer.value, outputDirectory, dryRun, transcode).requests;
        var r := RunFrom(steps, idx, input, outputDirectory, dryRun, transcode).requests;
        assert r == [req] + rest;
        forall k | 1 <= k < |r|
          ensures r[k] == StepRequest(steps[idx + k], idx + k, r[k].input, outputDirectory, dryRun)
        {
          var j := k - 1;
          assert r[k] == rest[j];
          assert StepsRequested(rest, steps, idx + 1, outputDirectory, dryRun);
          assert rest[j] == StepRequest(steps[idx + 1 + j], idx + 1 + j, rest[j].input, outputDirectory, dryRun);
        }
      }
    }
  }

  /** The loop from `idx` on threads its files: the first request reads
      `input`, and each later one reads what the transcoder returned for
      the one before. */
  lemma {:induction false} RunFromThreads<E>(steps: seq<ChainStep>, idx: nat, input: string, outputDirectory: string,
                                            dryRun: bool, transcode: Transcoder<E>)
    requires idx <= |steps|
    ensures var r := RunFrom(steps, idx, input, outputDirectory, dryRun, transcode);
      && (|r.requests| > 0 ==> r.requests[0].input == input)
      && (forall k :: 0 <= k < |r.requests| - 1 ==>
            transcode(r.requests[k]).Success? && r.requests[k + 1].input == transcode(r.requests[k]).value)
    decreases |steps| - idx
  {
    if idx < |steps| {
      var req := StepRequest(steps[idx], idx, input, outputDirectory, dryRun);
      var answer := transcode(req);
      if answer.Success? {
        RunFromThreads(steps, idx + 1, answer.value, outputDirectory, dryRun, transcode);
        var rest := RunFrom(steps, idx + 1, answer.value, outputDirectory, dryRun, transcode);
        var r := RunFrom(steps, idx, input, outputDirectory, dryRun, transcode);
        assert r.requests == [req] + rest.requests;
        forall k | 1 <= k < |r.requests| - 1
          ensures transcode(r.requests[k]).Success? && r.requests[k + 1].input == transcode(r.requests[k]).value
        {
          assert r.requests[k] == rest.requests[k - 1];
          assert r.requests[k + 1] == rest.requests[k];
        }
      }
    }
  }

  /** How the loop from `idx` on ends: a successful run returns, in step
      order, what the transcoder returned for each request; a failed one
      fails with the error of its last request; and a run with fewer
      requests than steps has failed. */
  lemma {:induction false} RunFromResult<E>(steps: seq<ChainStep>, idx: nat, input: string, outputDirectory: string,
                                           dryRun: bool, transcode: Transcoder<E>)
    requires idx <= |steps|
    ensures var r := RunFrom(steps, idx, input, outputDirectory, dryRun, transcode);
      && (r.result.Success? ==> forall k :: 0 <= k < |r.requests| ==> transcode(r.requests[k]) == Success(r.result.value[k]))
      && (r.result.Failure? ==> |r.requests| > 0 && transcode(r.requests[|r.requests| - 1]) == Failure(r.result.error))
      && (|r.requests| < |steps| - idx ==> r.result.Failure?)
    decreases |steps| - idx
  {
    if idx < |steps| {
      var req := StepRequest(steps[idx], idx, input, outputDirectory, dryRun);
      var answer := transcode(req);
      if answer.Success? {
        RunFromResult(steps, idx + 1, answer.value, outputDirectory, dryRun, transcode);
        var rest := RunFrom(steps, idx + 1, answer.value, outputDirectory, dryRun, transcode);
        var r := RunFrom(steps, idx, input, outputDirectory, dryRun, transcode);
        assert r.requests == [req] + rest.requests;
        if r.result.Success? {
          assert r.result.value == [answer.value] + rest.result.value;
          forall k | 1 <= k < |r.requests|
            ensures transcode(r.requests[k]) == Success(r.result.value[k])
          {
            assert r.requests[k] == rest.requests[k - 1];
            assert r.result.value[k] == rest.result.value[k - 1];
          }
        } else {
          assert r.result.error == rest.result.error;
          assert r.requests[|r.requests| - 1] == rest.requests[|rest.requests| - 1];
        }
      }
    }
  }

  /** The chain's plan: step `k` transcodes to `chain-step-k.<extension>`
      with the format's file extension and the step's settings, step 0
      reads the input, step `k + 1` reads step `k`'s result, and a
      successful chain returns those results in step order. */
  lemma ChainPlan<E>(input: string, steps: seq<ChainStep>, outputDirectory: string, dryRun: bool,
                     transcode: Transcoder<E>)
    ensures var r := RunChain(input, steps, outputDirectory, dryRun, transcode);
      && (|r.requests| > 0 ==> r.requests[0].input == input)
      && (forall k :: 0 <= k < |r.requests| ==>
            && r.requests[k].output == StepPath(outputDirectory, k, FileExtension(steps[k].format))
            && r.requests[k].format == steps[k].format && r.requests[k].bitrateKbps == steps[k].bitrateKbps
            && r.requests[k].sampleRate == steps[k].sampleRate && r.requests[k].channels == steps[k].channels
            && r.requests[k].dryRun == dryRun)
      && (forall k :: 0 <= k < |r.requests| - 1 ==>
            transcode(r.requests[k]).Success? && r.requests[k + 1].input == transcode(r.requests[k]).value)
      && (r.result.Success? ==> forall k :: 0 <= k < |steps| ==> transcode(r.requests[k]) == Success(r.result.value[k]))
  {
    var r := RunChain(input, steps, outputDirectory, dryRun, transcode).requests;
    RunFromRequests(steps, 0, input, outputDirectory, dryRun, transcode);
    RunFromThreads(steps, 0, input, outputDirectory, dryRun, transcode);
    RunFromResult(steps, 0, input, outputDirectory, dryRun, transcode);
    assert StepsRequested(r, steps, 0, outputDirectory, dryRun);
    forall k | 0 <= k < |r|
      ensures r[k].output == StepPath(outputDirectory, k, FileExtension(steps[k].format))
    {
      assert r[k] == StepRequest(steps[0 + k], 0 + k, r[k].input, outputDirectory, dryRun);
    }
  }

  /** A failing step aborts the chain: no later step is requested, and
      the chain fails with that step's error. */
  lemma FailureStops<E>(input: string, steps: seq<ChainStep>, outputDirectory: string, dryRun: bool,
                        transcode: Transcoder<E>, k: nat)
    requires var r := RunChain(input, steps, outputDirectory, dryRun, transcode);
      k < |r.requests| && transcode(r.requests[k]).Failure?
    ensures var r := RunChain(input, steps, outputDirectory, dryRun, transcode);
      && |r.requests| == k + 1
      && r.result == Failure(transcode(r.requests[k]).error)
  {
    RunFromThreads(steps, 0, input, outputDirectory, dryRun, transcode);
    RunFromResult(steps, 0, input, outputDirectory, dryRun, transcode);
  }

  /** A chain whose every step the transcoder accepts yields one output per
      step. */
  lemma AllSucceed<E>(input: string, steps: seq<ChainStep>, outputDirectory: string, dryRun: bool,
                      transcode: Transcoder<E>)
    requires forall req :: transcode(req).Success?
    ensures RunChain(input, steps, outputDirectory, dryRun, transcode).result.Success?
    ensures |RunChain(input, steps, outputDirectory, dryRun, transcode).result.value| == |steps|
  {
    RunFromResult(steps, 0, input, outputDirectory, dryRun, transcode);
  }

  /** Digits followed by a dot determine where the digits end. */
  lemma DigitsBeforeDot(a: string, b: string, x: string, y: string)
    requires forall i :: 0 <= i < |a| ==> Strings.IsDigit(a[i])
    requires forall i :: 0 <= i < |b| ==> Strings.IsDigit(b[i])
    requires a + "." + x == b + "." + y
    ensures a == b
  {
    var l, r := a + "." + x, b + "." + y;
    var k := Min(|a|, |b|);
    assert (l[k] == '.') == (|a| == k);
    assert (r[k] == '.') == (|b| == k);
    assert a == l[..|a|];
    assert b == r[..|b|];
  }

  /** Different steps write different files. */
  lemma StepNamesDistinct(i: nat, j: nat, x: string, y: string)
    requires StepName(i, x) == StepName(j, y)
    ensures i == j
  {
    var p := STEP_PREFIX;
    var a, b := Strings.Itos(i), Strings.Itos(j);
    assert StepName(i, x) == p + (a + "." + x);
    assert StepName(j, y) == p + (b + "." + y);
    assert a + "." + x == StepName(i, x)[|p|..];
    assert b + "." + y == StepName(j, y)[|p|..];
    DigitsBeforeDot(a, b, x, y);
    Strings.ItosInjective(i, j);
  }

  /** The output paths one chain requests name pairwise distinct files: two
      requests with the same rendered path are the same step, so no step
      overwrites another's output. */
  lemma OutputsDistinct<E>(input: string, steps: seq<ChainStep>, outputDirectory: string, dryRun: bool,
                           transcode: Transcoder<E>)
    ensures var r := RunChain(input, steps, outputDirectory, dryRun, transcode);
      forall i, j ::
        (0 <= i < |r.requests| && 0 <= j < |r.requests| && r.requests[i].output.Render() == r.requests[j].output.Render())
        ==> i == j
  {
    var r := RunChain(input, steps, outputDirectory, dryRun, transcode).requests;
    RunFromRequests(steps, 0, input, outputDirectory, dryRun, transcode);
    assert StepsRequested(r, steps, 0, outputDirectory, dryRun);
    forall i, j | 0 <= i < |r| && 0 <= j < |r| && r[i].output.Render() == r[j].output.Render()
      ensures i == j
    {
      var d := outputDirectory + "/";
      assert r[i].output == StepPath(outputDirectory, i, ChainExtension(steps[i].format));
      assert r[j].output == StepPath(outputDirectory, j, ChainExtension(steps[j].format));
      var si, sj := StepName(i, ChainExtension(steps[i].format)), StepName(j, ChainExtension(steps[j].format));
      assert si == r[i].output.Render()[|d|..];
      assert sj == r[j].output.Render()[|d|..];
      StepNamesDistinct(i, j, ChainExtension(steps[i].format), ChainExtension(steps[j].format));
    }
  }
}
