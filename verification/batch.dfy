/**
 * The batch driver: dispatch (fatal check, then one job per stock with a
 * round-robin data key), one job's processing (its own key in the
 * environment the engine is built from, the engine call, the report file and
 * the status line), and what the reports directory holds once every job has
 * finished, in whatever order they finish.
 */
module Batch {
  import opened Wrappers
  import opened Text
  import opened PyValues
  import opened Startup
  import opened Report

  /** The stocks the batch analyses, in submission order. */
  const StockList: seq<string> := ["AMZN", "VTI", "TSM", "NOW", "NVDA", "MSFT", "AMD"]

  const ReportsDir: string := "reports"

  /** The variable the analysis engine reads its data-provider key from. */
  const DataKeyVar: string := "ALPHA_VANTAGE_API_KEY"

  /** One submitted task: `process_stock(stock, key)`. */
  datatype Job = Job(stock: string, key: string)

  // ---------------------------------------------------------------------------
  // Dispatch
  // ---------------------------------------------------------------------------

  /** Stock `i` goes out with key `i mod |keys|`, one job per stock, in list order. */
  predicate IsRoundRobin(stocks: seq<string>, keys: seq<string>, jobs: seq<Job>)
    requires |keys| > 0
  {
    && |jobs| == |stocks|
    && forall i :: 0 <= i < |jobs| ==> jobs[i] == Job(stocks[i], keys[i % |keys|])
  }

  /** The submission loop of the main block. */
  method SubmitAll(stocks: seq<string>, keys: seq<string>) returns (jobs: seq<Job>)
    requires |keys| > 0
    ensures IsRoundRobin(stocks, keys, jobs)
  {
    jobs := [];
    var i := 0;
    while i < |stocks|
      invariant 0 <= i <= |stocks|
      invariant |jobs| == i
      invariant forall j :: 0 <= j < i ==> jobs[j] == Job(stocks[j], keys[j % |keys|])
    {
      var key := keys[i % |keys|];
      jobs := jobs + [Job(stocks[i], key)];
      i := i + 1;
    }
  }

  /**
   * Start-up followed by submission: a missing credential stops the batch
   * with exit status 1 before any job exists; otherwise every stock is
   * submitted with its round-robin key.
   */
  method Dispatch(env: Env, stocks: seq<string>) returns (r: Result<seq<Job>, Abort>)
    ensures r.Failure? <==>
      || Getenv(env, OpenAIKeyVar, "") == ""
      || Getenv(env, BraveKeyVar, "") == ""
      || OnlySpacesAndCommas(Getenv(env, DataKeysVar, ""))
    ensures r.Failure? ==> r.error == Abort(1, FatalMessage)
    ensures r.Success? ==>
      var keys := ParseKeys(Getenv(env, DataKeysVar, ""));
      |keys| > 0 && IsRoundRobin(stocks, keys, r.value)
  {
    var settings := LoadSettings(env);
    if settings.Failure? {
      return Failure(settings.error);
    }
    var jobs := SubmitAll(stocks, settings.value.dataKeys);
    return Success(jobs);
  }

  /** How many of the first `n` jobs use key slot `p` out of `k`. */
  function SlotCount(n: nat, k: nat, p: nat): nat
    requires k > 0
  {
    if n == 0 then 0 else SlotCount(n - 1, k, p) + (if (n - 1) % k == p then 1 else 0)
  }

  lemma MulMonotone(k: nat, x: int, y: int)
    ensures x <= y ==> k * x <= k * y
  {
    if x <= y {
      assert k * y == k * x + k * (y - x);
    }
  }

  lemma DivModUnique(a: nat, k: nat, q: nat, r: nat)
    requires k > 0 && r < k && a == k * q + r
    ensures a / k == q && a % k == r
  {
    var q' := a / k;
    assert a == k * q' + a % k;
    MulMonotone(k, q + 1, q');
    MulMonotone(k, q' + 1, q);
  }

  lemma DivModNext(m: nat, k: nat)
    requires k > 0
    ensures m % k == k - 1 ==> (m + 1) % k == 0 && (m + 1) / k == m / k + 1
    ensures m % k < k - 1 ==> (m + 1) % k == m % k + 1 && (m + 1) / k == m / k
  {
    var q := m / k;
    var r := m % k;
    assert m == k * q + r;
    if r == k - 1 {
      DivModUnique(m + 1, k, q + 1, 0);
    } else {
      DivModUnique(m + 1, k, q, r + 1);
    }
  }

  /** Exactly `n / k` jobs use a slot, plus one for the first `n % k` slots. */
  lemma {:induction false} SlotCountFormula(n: nat, k: nat, p: nat)
    requires p < k
    ensures SlotCount(n, k, p) == n / k + (if p < n % k then 1 else 0)
  {
    if n > 0 {
      var m := n - 1;
      SlotCountFormula(m, k, p);
      DivModNext(m, k);
      var q, r := m / k, m % k;
      assert SlotCount(n, k, p) == q + (if p < r then 1 else 0) + (if r == p then 1 else 0);
    }
  }

  /** Round robin spreads the jobs evenly: any two key slots serve job counts that differ by at most one. */
  lemma RoundRobinBalanced(n: nat, k: nat, p: nat, q: nat)
    requires p < k && q < k
    ensures -1 <= SlotCount(n, k, p) - SlotCount(n, k, q) <= 1
  {
    SlotCountFormula(n, k, p);
    SlotCountFormula(n, k, q);
  }

  // ---------------------------------------------------------------------------
  // One job
  // ---------------------------------------------------------------------------

  /** `os.path.join(a, b)` on POSIX. */
  function PathJoin(a: string, b: string): string {
    if |b| > 0 && b[0] == '/' then b
    else if a == "" || a[|a| - 1] == '/' then a + b
    else a + "/" + b
  }

  /** Where a stock's report goes. */
  function ReportPath(stock: string): (path: string)
    ensures (stock == "" || stock[0] != '/') ==> path == ReportsDir + "/" + stock + "_analysis.txt"
    ensures (stock != "" && stock[0] == '/') ==> path == stock + "_analysis.txt"
  {
    PathJoin(ReportsDir, stock + "_analysis.txt")
  }

  /** Different stocks never share a report path (the path strings differ). */
  lemma ReportPathInjective(s1: string, s2: string)
    requires ReportPath(s1) == ReportPath(s2)
    ensures s1 == s2
  {
    var p := ReportPath(s1);
    var abs1 := s1 != "" && s1[0] == '/';
    var abs2 := s2 != "" && s2[0] == '/';
    assert p[0] == (if abs1 then '/' else 'r');
    assert ReportPath(s2)[0] == (if abs2 then '/' else 'r');
    if abs1 && abs2 {
      assert s1 == p[..|s1|] && s2 == p[..|s2|];
    } else if !abs1 && !abs2 {
      assert s1 == p[8..8 + |s1|] && s2 == p[8..8 + |s2|];
    }
  }

  /** The environment the engine is built from: the job's key installed, everything else as it was. */
  function JobEnv(env: Env, key: string): (e: Env)
    ensures DataKeyVar in e && e[DataKeyVar] == key
    ensures forall v :: v in env && v != DataKeyVar ==> v in e && e[v] == env[v]
    ensures forall v :: v in e ==> v in env || v == DataKeyVar
  {
    env[DataKeyVar := key]
  }

  /** The banner line announcing a job; it shows the key only through `Mask`. */
  function StartBanner(stock: string, key: string): string {
    "🔍 正在启动分析: " + stock + " ... (当前使用数据 Key: " + Mask(key) + ")"
  }

  /** Two keys that agree on their first four characters give the same banner. */
  lemma BannerHidesKey(stock: string, k1: string, k2: string)
    requires |k1| >= 4 && |k2| >= 4 && k1[..4] == k2[..4]
    ensures StartBanner(stock, k1) == StartBanner(stock, k2)
  {
    MaskShowsOnlyPrefix(k1, k2);
  }

  /** What `ta.propagate(stock, today_str)` did: returned a state and a decision, or raised. */
  datatype EngineRun = Completed(state: PyValue, decision: PyValue) | Raised(error: PyException)

  /** The analysis engine, built from an environment and asked about a stock on a date. */
  type Engine = (Env, string, string) -> EngineRun

  datatype FileWrite = FileWrite(path: string, text: string)

  /** What one job leaves behind: the banner it printed, the file it wrote (if any), the line it returned. */
  datatype JobOutcome = JobOutcome(banner: string, file: Option<FileWrite>, status: string)

  function SavedStatus(stock: string, path: string): string {
    "✅ 【" + stock + "】全量深度报告已成功保存至: " + path
  }

  function FailedStatus(stock: string, message: string): string {
    "❌ 【" + stock + "】分析失败，错误信息: " + message
  }

  /**
   * `process_stock`: the engine is built from the environment carrying the
   * job's own key; if the analysis call raises, no file is opened; otherwise
   * the report is written to the stock's path, and if rendering raises
   * half-way the file keeps the part written before the exception.
   */
  function ProcessStock(env: Env, job: Job, date: string, engine: Engine): (o: JobOutcome)
    ensures o.banner == StartBanner(job.stock, job.key)
    ensures o.file.None? <==> engine(JobEnv(env, job.key), job.stock, date).Raised?
    ensures engine(JobEnv(env, job.key), job.stock, date).Raised? ==>
      o.status == FailedStatus(job.stock, engine(JobEnv(env, job.key), job.stock, date).error.message)
    ensures engine(JobEnv(env, job.key), job.stock, date).Completed? ==>
      var run := engine(JobEnv(env, job.key), job.stock, date);
      var out := Render(job.stock, date, run.state, run.decision);
      && o.file == Some(FileWrite(ReportPath(job.stock), out.text))
      && IsPrefix(Header(job.stock, date), o.file.value.text)
      && (out.raised.None? ==> o.status == SavedStatus(job.stock, ReportPath(job.stock))
                               && IsSuffix(Footer(Str(run.decision)), o.file.value.text))
      && (out.raised.Some? ==> o.status == FailedStatus(job.stock, out.raised.value.message))
  {
    var banner := StartBanner(job.stock, job.key);
    match engine(JobEnv(env, job.key), job.stock, date)
    case Raised(e) => JobOutcome(banner, None, FailedStatus(job.stock, e.message))
    case Completed(state, decision) =>
      var path := ReportPath(job.stock);
      var out := Render(job.stock, date, state, decision);
      var status := if out.raised.None? then SavedStatus(job.stock, path) else FailedStatus(job.stock, out.raised.value.message);
      JobOutcome(banner, Some(FileWrite(path, out.text)), status)
  }

  // ---------------------------------------------------------------------------
  // The reports directory after the batch
  // ---------------------------------------------------------------------------

  /**
   * Every job, each with the date it read from the clock when it started
   * (`datetime.today()` is called inside the job, so two jobs may see
   * different days).
   */
  function RunJobs(env: Env, jobs: seq<Job>, dates: seq<string>, engine: Engine): (os: seq<JobOutcome>)
    requires |dates| == |jobs|
    ensures |os| == |jobs|
    ensures forall i :: 0 <= i < |jobs| ==> os[i] == ProcessStock(env, jobs[i], dates[i], engine)
  {
    seq(|jobs|, i requires 0 <= i < |jobs| => ProcessStock(env, jobs[i], dates[i], engine))
  }

  /** The files the outcomes wrote, in outcome order. */
  function Written(os: seq<JobOutcome>): seq<FileWrite>
    decreases |os|
  {
    if |os| == 0 then []
    else (if os[0].file.Some? then [os[0].file.value] else []) + Written(os[1..])
  }

  /** Writing files one after another (each `open(path, "w")` replaces the old content). */
  function ApplyWrites(fs: map<string, string>, ws: seq<FileWrite>): map<string, string>
    decreases |ws|
  {
    if |ws| == 0 then fs else ApplyWrites(fs[ws[0].path := ws[0].text], ws[1..])
  }

  predicate DistinctPaths(ws: seq<FileWrite>) {
    forall i, j :: 0 <= i < j < |ws| ==> ws[i].path != ws[j].path
  }

  function PathsOf(ws: seq<FileWrite>): set<string> {
    set w | w in ws :: w.path
  }

  /** With distinct paths, every write survives and nothing else changes. */
  lemma {:induction false} ApplyWritesSpec(fs: map<string, string>, ws: seq<FileWrite>)
    requires DistinctPaths(ws)
    ensures forall w :: w in ws ==> w.path in ApplyWrites(fs, ws) && ApplyWrites(fs, ws)[w.path] == w.text
    ensures ApplyWrites(fs, ws).Keys == fs.Keys + PathsOf(ws)
    ensures forall p :: p in fs && p !in PathsOf(ws) ==> ApplyWrites(fs, ws)[p] == fs[p]
    decreases |ws|
  {
    if |ws| > 0 {
      var fs' := fs[ws[0].path := ws[0].text];
      ApplyWritesSpec(fs', ws[1..]);
      PathsOfCons(ws);
    }
  }

  /** The paths of a list of writes: the first one's, and the rest's, which differ from it. */
  lemma PathsOfCons(ws: seq<FileWrite>)
    requires |ws| > 0 && DistinctPaths(ws)
    ensures PathsOf(ws) == {ws[0].path} + PathsOf(ws[1..])
    ensures ws[0].path !in PathsOf(ws[1..])
    ensures DistinctPaths(ws[1..])
  {
    var rest := ws[1..];
    forall w | w in rest
      ensures w.path != ws[0].path
    {
      var j :| 0 <= j < |rest| && rest[j] == w;
      assert ws[j + 1] == w;
    }
    assert ws == [ws[0]] + rest;
  }

  lemma {:induction false} DistinctMultiplicity(ws: seq<FileWrite>, x: FileWrite)
    requires DistinctPaths(ws)
    ensures multiset(ws)[x] <= 1
    decreases |ws|
  {
    if |ws| > 0 {
      DistinctMultiplicity(ws[1..], x);
      assert ws == [ws[0]] + ws[1..];
      if ws[0] == x {
        assert x !in ws[1..] by {
          forall j | 0 <= j < |ws[1..]|
            ensures ws[1..][j] != x
          {
            assert ws[1..][j] == ws[j + 1];
          }
        }
      }
    }
  }

  /** Reordering writes whose paths are distinct keeps them distinct. */
  lemma DistinctPermutation(a: seq<FileWrite>, b: seq<FileWrite>)
    requires DistinctPaths(a) && multiset(a) == multiset(b)
    ensures DistinctPaths(b)
  {
    forall i, j | 0 <= i < j < |b|
      ensures b[i].path != b[j].path
    {
      if b[i] == b[j] {
        assert b == b[..j] + b[j..];
        assert b[i] in b[..j];
        assert b[j] in b[j..];
        assert multiset(b)[b[i]] == multiset(b[..j])[b[i]] + multiset(b[j..])[b[i]];
        DistinctMultiplicity(a, b[i]);
      } else {
        assert b[i] in multiset(a) && b[j] in multiset(a);
        var i' :| 0 <= i' < |a| && a[i'] == b[i];
        var j' :| 0 <= j' < |a| && a[j'] == b[j];
        assert i' != j';
      }
    }
  }

  /** The final content of the files does not depend on the order in which they were written. */
  lemma ApplyWritesOrderFree(fs: map<string, string>, a: seq<FileWrite>, b: seq<FileWrite>)
    requires DistinctPaths(a) && multiset(a) == multiset(b)
    ensures ApplyWrites(fs, a) == ApplyWrites(fs, b)
  {
    DistinctPermutation(a, b);
    SameMembers(a, b);
    SameWritesSameFiles(fs, a, b);
  }

  /** Two orderings of the same writes hold the same writes. */
  lemma SameMembers(a: seq<FileWrite>, b: seq<FileWrite>)
    requires multiset(a) == multiset(b)
    ensures forall w :: w in a <==> w in b
  {
    forall w
      ensures w in a <==> w in b
    {
      assert w in a <==> w in multiset(a);
      assert w in b <==> w in multiset(b);
    }
  }

  /** Two lists of writes to distinct paths that hold the same writes leave the same files. */
  lemma SameWritesSameFiles(fs: map<string, string>, a: seq<FileWrite>, b: seq<FileWrite>)
    requires DistinctPaths(a) && DistinctPaths(b)
    requires forall w :: w in a <==> w in b
    ensures ApplyWrites(fs, a) == ApplyWrites(fs, b)
  {
    ApplyWritesSpec(fs, a);
    ApplyWritesSpec(fs, b);
    assert PathsOf(a) == PathsOf(b);
    var ra := ApplyWrites(fs, a);
    var rb := ApplyWrites(fs, b);
    forall p | p in ra
      ensures ra[p] == rb[p]
    {
      if p in PathsOf(a) {
        var w :| w in a && w.path == p;
      }
    }
  }

  lemma {:induction false} WrittenMembers(os: seq<JobOutcome>)
    ensures forall i :: 0 <= i < |os| && os[i].file.Some? ==> os[i].file.value in Written(os)
    ensures forall w :: w in Written(os) ==> exists i :: 0 <= i < |os| && os[i].file == Some(w)
    decreases |os|
  {
    if |os| > 0 {
      WrittenMembers(os[1..]);
      var head := if os[0].file.Some? then [os[0].file.value] else [];
      assert Written(os) == head + Written(os[1..]);
      forall w | w in Written(os)
        ensures exists i :: 0 <= i < |os| && os[i].file == Some(w)
      {
        if w !in head {
          var i :| 0 <= i < |os[1..]| && os[1..][i].file == Some(w);
          assert os[i + 1].file == Some(w);
        }
      }
      forall i | 0 <= i < |os| && os[i].file.Some?
        ensures os[i].file.value in Written(os)
      {
        if i > 0 {
          assert os[1..][i - 1] == os[i];
        }
      }
    }
  }

  /** Outcomes whose files have pairwise different paths. */
  predicate OutcomePathsDistinct(os: seq<JobOutcome>) {
    forall i, j :: 0 <= i < j < |os| && os[i].file.Some? && os[j].file.Some? ==> os[i].file.value.path != os[j].file.value.path
  }

  lemma {:induction false} WrittenDistinct(os: seq<JobOutcome>)
    requires OutcomePathsDistinct(os)
    ensures DistinctPaths(Written(os))
    decreases |os|
  {
    if |os| > 0 {
      var rest := os[1..];
      assert OutcomePathsDistinct(rest) by {
        forall i, j | 0 <= i < j < |rest| && rest[i].file.Some? && rest[j].file.Some?
          ensures rest[i].file.value.path != rest[j].file.value.path
        {
          assert rest[i] == os[i + 1] && rest[j] == os[j + 1];
        }
      }
      WrittenDistinct(rest);
      WrittenMembers(rest);
      var head := if os[0].file.Some? then [os[0].file.value] else [];
      var ws := Written(os);
      assert ws == head + Written(rest);
      if os[0].file.Some? {
        forall j | 0 < j < |ws|
          ensures ws[0].path != ws[j].path
        {
          var w := Written(rest)[j - 1];
          assert w in Written(rest);
          var k :| 0 <= k < |rest| && rest[k].file == Some(w);
          assert os[k + 1] == rest[k];
        }
        forall i, j | 0 < i < j < |ws|
          ensures ws[i].path != ws[j].path
        {
          assert ws[i] == Written(rest)[i - 1] && ws[j] == Written(rest)[j - 1];
        }
      }
    }
  }

  /** Every file a batch job writes is at its own stock's report path. */
  lemma OutcomePaths(env: Env, jobs: seq<Job>, dates: seq<string>, engine: Engine)
    requires |dates| == |jobs|
    ensures forall k :: 0 <= k < |jobs| && RunJobs(env, jobs, dates, engine)[k].file.Some? ==>
      RunJobs(env, jobs, dates, engine)[k].file.value.path == ReportPath(jobs[k].stock)
  {
  }

  /** Outcomes that write only to their own stock's path, for distinct stocks, never share a path. */
  lemma StockPathsDistinct(os: seq<JobOutcome>, stocks: seq<string>)
    requires |os| == |stocks|
    requires forall i, j :: 0 <= i < j < |stocks| ==> stocks[i] != stocks[j]
    requires forall k :: 0 <= k < |os| && os[k].file.Some? ==> os[k].file.value.path == ReportPath(stocks[k])
    ensures OutcomePathsDistinct(os)
  {
    forall i, j | 0 <= i < j < |os| && os[i].file.Some? && os[j].file.Some?
      ensures os[i].file.value.path != os[j].file.value.path
    {
      if os[i].file.value.path == os[j].file.value.path {
        ReportPathInjective(stocks[i], stocks[j]);
      }
    }
  }

  /** Distinct stocks give batch outcomes whose files never share a path. */
  lemma BatchPathsDistinct(env: Env, stocks: seq<string>, keys: seq<string>, jobs: seq<Job>, dates: seq<string>, engine: Engine)
    requires |keys| > 0 && IsRoundRobin(stocks, keys, jobs) && |dates| == |stocks|
    requires forall i, j :: 0 <= i < j < |stocks| ==> stocks[i] != stocks[j]
    ensures DistinctPaths(Written(RunJobs(env, jobs, dates, engine)))
  {
    var os := RunJobs(env, jobs, dates, engine);
    OutcomePaths(env, jobs, dates, engine);
    assert forall k :: 0 <= k < |jobs| ==> jobs[k].stock == stocks[k];
    StockPathsDistinct(os, stocks);
    WrittenDistinct(os);
  }

  /** A file some outcome wrote holds that outcome's text at the end. */
  lemma WrittenSurvives(fs: map<string, string>, os: seq<JobOutcome>, i: nat)
    requires DistinctPaths(Written(os))
    requires i < |os| && os[i].file.Some?
    ensures os[i].file.value.path in ApplyWrites(fs, Written(os))
    ensures ApplyWrites(fs, Written(os))[os[i].file.value.path] == os[i].file.value.text
  {
    WrittenMembers(os);
    ApplyWritesSpec(fs, Written(os));
  }

  /** A path no outcome wrote keeps what it held before. */
  lemma UnwrittenUntouched(fs: map<string, string>, os: seq<JobOutcome>, p: string)
    requires DistinctPaths(Written(os))
    requires forall k :: 0 <= k < |os| && os[k].file.Some? ==> os[k].file.value.path != p
    ensures p in ApplyWrites(fs, Written(os)) <==> p in fs
    ensures p in fs ==> ApplyWrites(fs, Written(os))[p] == fs[p]
  {
    WrittenMembers(os);
    ApplyWritesSpec(fs, Written(os));
    assert p !in PathsOf(Written(os));
  }

  /** The report path of stock `i` after the writes: its own text, or untouched if it wrote nothing. */
  lemma StockPathAfter(fs: map<string, string>, os: seq<JobOutcome>, stocks: seq<string>, i: nat)
    requires |os| == |stocks| && i < |os|
    requires forall i, j :: 0 <= i < j < |stocks| ==> stocks[i] != stocks[j]
    requires forall k :: 0 <= k < |os| && os[k].file.Some? ==> os[k].file.value.path == ReportPath(stocks[k])
    requires DistinctPaths(Written(os))
    ensures var final := ApplyWrites(fs, Written(os));
      && (os[i].file.Some? ==> ReportPath(stocks[i]) in final && final[ReportPath(stocks[i])] == os[i].file.value.text)
      && (os[i].file.None? ==>
            (ReportPath(stocks[i]) in final <==> ReportPath(stocks[i]) in fs)
            && (ReportPath(stocks[i]) in fs ==> final[ReportPath(stocks[i])] == fs[ReportPath(stocks[i])]))
  {
    if os[i].file.Some? {
      WrittenSurvives(fs, os, i);
    } else {
      forall k | 0 <= k < |os| && os[k].file.Some?
        ensures os[k].file.value.path != ReportPath(stocks[i])
      {
        if os[k].file.value.path == ReportPath(stocks[i]) {
          ReportPathInjective(stocks[k], stocks[i]);
        }
      }
      UnwrittenUntouched(fs, os, ReportPath(stocks[i]));
    }
  }

  /** Job `i`'s outcome in terms of its engine run. */
  lemma JobFile(env: Env, stocks: seq<string>, keys: seq<string>, jobs: seq<Job>, dates: seq<string>, engine: Engine, i: nat)
    requires |keys| > 0 && IsRoundRobin(stocks, keys, jobs) && |dates| == |stocks| && i < |jobs|
    ensures var run := engine(JobEnv(env, keys[i % |keys|]), stocks[i], dates[i]);
      var o := RunJobs(env, jobs, dates, engine)[i];
      && (o.file.Some? <==> run.Completed?)
      && (run.Completed? ==> o.file.value.text == Render(stocks[i], dates[i], run.state, run.decision).text)
  {
    assert jobs[i] == Job(stocks[i], keys[i % |keys|]);
  }

  /** What job `i` of the batch leaves at its report path once all files are written in job order. */
  lemma JobReport(env: Env, stocks: seq<string>, keys: seq<string>, jobs: seq<Job>, dates: seq<string>,
                  engine: Engine, fs: map<string, string>, i: nat)
    requires |keys| > 0 && IsRoundRobin(stocks, keys, jobs) && |dates| == |stocks|
    requires forall i, j :: 0 <= i < j < |stocks| ==> stocks[i] != stocks[j]
    requires i < |stocks|
    ensures
      var run := engine(JobEnv(env, keys[i % |keys|]), stocks[i], dates[i]);
      var final := ApplyWrites(fs, Written(RunJobs(env, jobs, dates, engine)));
      var path := ReportPath(stocks[i]);
      && (run.Completed? ==> path in final && final[path] == Render(stocks[i], dates[i], run.state, run.decision).text)
      && (run.Raised? ==> (path in final <==> path in fs) && (path in fs ==> final[path] == fs[path]))
  {
    var os := RunJobs(env, jobs, dates, engine);
    BatchPathsDistinct(env, stocks, keys, jobs, dates, engine);
    OutcomePaths(env, jobs, dates, engine);
    assert forall k :: 0 <= k < |jobs| ==> jobs[k].stock == stocks[k];
    StockPathAfter(fs, os, stocks, i);
    JobFile(env, stocks, keys, jobs, dates, engine, i);
  }

  /**
   * The whole batch, for distinct stocks and the files written in any
   * completion order: every job whose analysis call returned leaves its
   * rendered report (built with its own round-robin key) at its own path,
   * and a job whose call raised leaves its path as it was before the batch.
   */
  lemma BatchReports(env: Env, stocks: seq<string>, keys: seq<string>, jobs: seq<Job>, dates: seq<string>,
                     engine: Engine, fs: map<string, string>, completion: seq<FileWrite>)
    requires |keys| > 0 && IsRoundRobin(stocks, keys, jobs) && |dates| == |stocks|
    requires forall i, j :: 0 <= i < j < |stocks| ==> stocks[i] != stocks[j]
    requires multiset(completion) == multiset(Written(RunJobs(env, jobs, dates, engine)))
    ensures forall i :: 0 <= i < |stocks| ==>
      var run := engine(JobEnv(env, keys[i % |keys|]), stocks[i], dates[i]);
      var final := ApplyWrites(fs, completion);
      var path := ReportPath(stocks[i]);
      && (run.Completed? ==> path in final && final[path] == Render(stocks[i], dates[i], run.state, run.decision).text)
      && (run.Raised? ==> (path in final <==> path in fs) && (path in fs ==> final[path] == fs[path]))
  {
    BatchPathsDistinct(env, stocks, keys, jobs, dates, engine);
    ApplyWritesOrderFree(fs, Written(RunJobs(env, jobs, dates, engine)), completion);
    forall i | 0 <= i < |stocks|
      ensures
        var run := engine(JobEnv(env, keys[i % |keys|]), stocks[i], dates[i]);
        var final := ApplyWrites(fs, completion);
        var path := ReportPath(stocks[i]);
        && (run.Completed? ==> path in final && final[path] == Render(stocks[i], dates[i], run.state, run.decision).text)
        && (run.Raised? ==> (path in final <==> path in fs) && (path in fs ==> final[path] == fs[path]))
    {
      JobReport(env, stocks, keys, jobs, dates, engine, fs, i);
    }
  }

  /** The script's own stock list names no stock twice, so `BatchReports` applies to it. */
  lemma StockListDistinct()
    ensures forall i, j :: 0 <= i < j < |StockList| ==> StockList[i] != StockList[j]
  {
  }
}
