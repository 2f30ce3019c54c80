/** The autonomous scheduler (autonomous/scheduler.py): the rules that decide
    when the assistant should improve itself, the jobs that turn those
    decisions into tasks and memory entries, the book of custom jobs, and the
    question generator. The `schedule` library's registry is kept as the list
    of jobs handed to it; when they run is not modelled. */
module Scheduler {
  import opened Prelude
  import opened Dicts
  import opened PyValues
  import opened Store

  // ===================== learning recommendations =====================

  const SimplerTasks: string := "Focus on simpler tasks to build confidence"
  const ReviewFailures: string := "Review recent failed interactions for patterns"
  const AdjustApproach: string := "Consider adjusting learning approach"
  const ComplexChallenges: string := "Ready for more complex challenges"
  const AdvancedTopics: string := "Explore advanced AI development topics"
  const SharePatterns: string := "Share successful patterns with other projects"
  const MaintainPace: string := "Maintain current learning pace and methods"

  /** `generate_learning_recommendations(success_rate)`: three remedies below
      0.6, three stretch goals above 0.8, one steady-state advice between. */
  function LearningRecommendations(successRate: real): (r: seq<string>)
    ensures 1 <= |r| <= 3
    ensures successRate < 0.6 ==> |r| == 3 && r[0] == SimplerTasks
    ensures successRate > 0.8 ==> |r| == 3 && ComplexChallenges in r
    ensures 0.6 <= successRate <= 0.8 <==> r == [MaintainPace]
  {
    if successRate < 0.6 then [SimplerTasks, ReviewFailures, AdjustApproach]
    else if successRate > 0.8 then [ComplexChallenges, AdvancedTopics, SharePatterns]
    else [MaintainPace]
  }

  // ===================== improvement heuristics =====================

  /** The memory entry `key` is a non-empty string naming an instant less than
      `days` whole days before now. */
  predicate StampedWithin(memory: Dict<PyValue>, key: string, clock: Clock, days: int)
  {
    && memory.Get(key).Some?
    && memory.Get(key).value.PStr?
    && memory.Get(key).value.s != ""
    && clock.fromIso(memory.Get(key).value.s).Some?
    && clock.now - clock.fromIso(memory.Get(key).value.s).value < days * MicrosPerDay
  }

  /** The shared rule of `should_optimize_code` and `should_expand_integrations`:
      true when the memory entry `key` is missing or falsy, when it is not a
      string `datetime.fromisoformat` accepts, or when at least `days` whole
      days have passed since the instant it names. */
  function DueAgain(memory: Dict<PyValue>, key: string, clock: Clock, days: int): (r: bool)
    ensures !r <==> StampedWithin(memory, key, clock, days)
  {
    match memory.Get(key)
    case None => true
    case Some(last) =>
      if !Truthy(last) then true
      else if !last.PStr? then true
      else
        match clock.fromIso(last.s)
        case None => true
        case Some(t) => DaysBetween(t, clock.now) >= days
  }

  /** `should_optimize_code`: weekly. */
  function ShouldOptimizeCode(memory: Dict<PyValue>, clock: Clock): (r: bool)
    ensures !r <==> StampedWithin(memory, "last_code_optimization", clock, 7)
  {
    DueAgain(memory, "last_code_optimization", clock, 7)
  }

  /** `should_expand_integrations`: monthly. */
  function ShouldExpandIntegrations(memory: Dict<PyValue>, clock: Clock): (r: bool)
    ensures !r <==> StampedWithin(memory, "last_integration_expansion", clock, 30)
  {
    DueAgain(memory, "last_integration_expansion", clock, 30)
  }

  /** `should_enhance_learning`: fewer than five interactions in the last three days. */
  function ShouldEnhanceLearning(log: seq<LearningRecord>, now: Instant): (r: bool)
    ensures r <==> |FreshIndices(log, now, 3)| < 5
    ensures |log| < 5 ==> r
    ensures (forall x :: x in log ==> DaysBetween(x.timestamp, now) >= 3) ==> r
  {
    var recent := Recent(log, now, 3);
    assert recent != [] ==> recent[0] in recent;
    RecentCount(log, now, 3);
    |recent| < 5
  }

  /** Five interactions recorded at `now` switch the learning enhancement off,
      whatever came before. */
  lemma {:induction false} FiveFreshRecordsSuffice(log: seq<LearningRecord>, newest: seq<LearningRecord>, now: Instant)
    requires |newest| >= 5
    requires forall x :: x in newest ==> DaysBetween(x.timestamp, now) < 3
    ensures !ShouldEnhanceLearning(log + newest, now)
  {
    RecentAppend(log, newest, now, 3);
    RecentKeepsAll(newest, now, 3);
  }

  lemma {:induction false} RecentKeepsAll(log: seq<LearningRecord>, now: Instant, days: int)
    requires forall x :: x in log ==> DaysBetween(x.timestamp, now) < days
    ensures Recent(log, now, days) == log
  {
    if log != [] {
      assert log[0] in log;
      forall x | x in log[1..] ensures DaysBetween(x.timestamp, now) < days { assert x in log; }
      RecentKeepsAll(log[1..], now, days);
      assert log == [log[0]] + log[1..];
    }
  }

  // ===================== improvement areas =====================

  /** One entry of `identify_improvement_areas`. */
  datatype Area = Area(title: string, description: string, priority: int, dueHours: int)

  const CodeOptimization: Area :=
    Area("Code Optimization", "Review and optimize existing code for better performance", 7, 48)
  const LearningEnhancement: Area :=
    Area("Learning Enhancement", "Research new AI techniques and implementation methods", 6, 24)
  const IntegrationExpansion: Area :=
    Area("Integration Expansion", "Explore new API integrations and platform connections", 5, 72)

  /** The place of each fixed area in the order the source checks them. */
  function Rank(a: Area): int
  {
    if a == CodeOptimization then 0 else if a == LearningEnhancement then 1 else 2
  }

  /** `identify_improvement_areas()` on the assistant's memory, learning list
      and the clock: each fixed area whose heuristic fires, in the fixed order. */
  function ImprovementAreas(memory: Dict<PyValue>, log: seq<LearningRecord>, clock: Clock): (r: seq<Area>)
    ensures |r| <= 3
    ensures CodeOptimization in r <==> ShouldOptimizeCode(memory, clock)
    ensures LearningEnhancement in r <==> ShouldEnhanceLearning(log, clock.now)
    ensures IntegrationExpansion in r <==> ShouldExpandIntegrations(memory, clock)
    ensures forall a :: a in r ==> a in [CodeOptimization, LearningEnhancement, IntegrationExpansion]
    ensures forall i, j :: 0 <= i < j < |r| ==> Rank(r[i]) < Rank(r[j])
  {
    assert CodeOptimization != LearningEnhancement && CodeOptimization != IntegrationExpansion
        && LearningEnhancement != IntegrationExpansion by {
      assert CodeOptimization.priority == 7 && LearningEnhancement.priority == 6
          && IntegrationExpansion.priority == 5;
    }
    (if ShouldOptimizeCode(memory, clock) then [CodeOptimization] else [])
    + (if ShouldEnhanceLearning(log, clock.now) then [LearningEnhancement] else [])
    + (if ShouldExpandIntegrations(memory, clock) then [IntegrationExpansion] else [])
  }

  /** The tasks `self_improvement_check` creates, one per area, in order. */
  function ImprovementTasks(areas: seq<Area>, now: Instant): (specs: seq<TaskSpec>)
    ensures |specs| == |areas|
    ensures forall i :: 0 <= i < |areas| ==>
      specs[i] == TaskSpec("Improve: " + areas[i].title, areas[i].description, areas[i].priority,
                           Some(HoursAfter(now, areas[i].dueHours)))
  {
    seq(|areas|, i requires 0 <= i < |areas| =>
      TaskSpec("Improve: " + areas[i].title, areas[i].description, areas[i].priority,
               Some(HoursAfter(now, areas[i].dueHours))))
  }

  function AreaValue(a: Area): PyValue
  {
    PDict(Empty<PyValue>()
      .Put("title", PStr(a.title))
      .Put("description", PStr(a.description))
      .Put("priority", PInt(a.priority))
      .Put("due_hours", PInt(a.dueHours)))
  }

  /** The report `self_improvement_check` saves. */
  function ImprovementReport(iso: string, areas: seq<Area>): (v: PyValue)
    ensures v.PDict? && v.d.Valid()
    ensures v.d.Get("areas_identified") == Some(PInt(|areas|))
    ensures v.d.Get("timestamp") == Some(PStr(iso))
  {
    var listed := seq(|areas|, i requires 0 <= i < |areas| => AreaValue(areas[i]));
    var d0 := Empty<PyValue>().Put("timestamp", PStr(iso));
    var d1 := d0.Put("areas_identified", PInt(|areas|));
    var d2 := d1.Put("areas", PList(listed));
    assert d2.Get("timestamp") == d1.Get("timestamp") == Some(PStr(iso)) by {
      assert "timestamp"[0] != "areas_identified"[0];
      assert "timestamp"[0] != "areas"[0];
    }
    assert d2.Get("areas_identified") == d1.Get("areas_identified") by {
      assert |"areas_identified"| != |"areas"|;
    }
    PDict(d2)
  }

  // ===================== adaptive tasks =====================

  function GitHubReview(now: Instant): TaskSpec
  {
    TaskSpec("Review GitHub Projects", "Check for updates and contribute to repositories", 7,
             Some(HoursAfter(now, 4)))
  }

  function LearningSession(now: Instant): TaskSpec
  {
    TaskSpec("AI Learning Session", "Spend time on AI development and research", 8,
             Some(HoursAfter(now, 2)))
  }

  /** The tasks `create_adaptive_tasks(insights)` creates: the GitHub review
      exactly when the lower-cased insights mention "github", then the
      learning session exactly when they mention "learning". */
  function AdaptiveTasks(insights: string, now: Instant): (specs: seq<TaskSpec>)
    ensures |specs| <= 2
    ensures GitHubReview(now) in specs <==> Contains(Lower(insights), "github")
    ensures LearningSession(now) in specs <==> Contains(Lower(insights), "learning")
    ensures forall s :: s in specs ==> s == GitHubReview(now) || s == LearningSession(now)
    ensures |specs| == 2 ==> specs == [GitHubReview(now), LearningSession(now)]
  {
    assert GitHubReview(now) != LearningSession(now) by {
      assert GitHubReview(now).priority != LearningSession(now).priority;
    }
    var text := Lower(insights);
    (if Contains(text, "github") then [GitHubReview(now)] else [])
    + (if Contains(text, "learning") then [LearningSession(now)] else [])
  }

  // ===================== learning analysis =====================

  function SumSuccess(records: seq<LearningRecord>): real
  {
    if records == [] then 0.0 else SumSuccess(records[..|records| - 1]) + records[|records| - 1].success
  }

  /** The average success score of a non-empty list of records. */
  function MeanSuccess(records: seq<LearningRecord>): real
    requires records != []
  {
    SumSuccess(records) / (|records| as real)
  }

  lemma {:induction false} SumSuccessBounds(records: seq<LearningRecord>, lo: real, hi: real)
    requires forall x :: x in records ==> lo <= x.success <= hi
    ensures (|records| as real) * lo <= SumSuccess(records) <= (|records| as real) * hi
  {
    if records != [] {
      var prefix := records[..|records| - 1];
      forall x | x in prefix ensures lo <= x.success <= hi { assert x in records; }
      SumSuccessBounds(prefix, lo, hi);
      var last := records[|records| - 1];
      assert last in records;
      assert lo <= last.success <= hi;
      var m := |prefix| as real;
      assert |records| as real == m + 1.0;
      assert SumSuccess(records) == SumSuccess(prefix) + last.success;
      assert (|records| as real) * lo == m * lo + lo;
      assert (|records| as real) * hi == m * hi + hi;
    }
  }

  /** The mean stays within the bounds of the scores averaged. */
  lemma MeanSuccessBounds(records: seq<LearningRecord>, lo: real, hi: real)
    requires records != []
    requires forall x :: x in records ==> lo <= x.success <= hi
    ensures lo <= MeanSuccess(records) <= hi
  {
    SumSuccessBounds(records, lo, hi);
    var n := |records| as real;
    assert n > 0.0;
    assert MeanSuccess(records) * n == SumSuccess(records);
  }

  /** The report `perform_learning_analysis` saves over the analysed records. */
  function LearningReport(iso: string, analysed: seq<LearningRecord>): (v: PyValue)
    requires analysed != []
    ensures v.PDict? && v.d.Valid()
    ensures v.d.Get("interactions_analyzed") == Some(PInt(|analysed|))
    ensures v.d.Get("average_success") == Some(PFloat(MeanSuccess(analysed)))
    ensures v.d.Get("recommendations") == Some(PList(StrValues(LearningRecommendations(MeanSuccess(analysed)))))
  {
    var avg := MeanSuccess(analysed);
    var d0 := Empty<PyValue>().Put("timestamp", PStr(iso));
    var d1 := d0.Put("interactions_analyzed", PInt(|analysed|));
    var d2 := d1.Put("average_success", PFloat(avg));
    var d3 := d2.Put("recommendations", PList(StrValues(LearningRecommendations(avg))));
    assert d3.Get("interactions_analyzed") == d1.Get("interactions_analyzed") by {
      assert "interactions_analyzed"[0] != "average_success"[0];
      assert "interactions_analyzed"[0] != "recommendations"[0];
    }
    assert d3.Get("average_success") == d2.Get("average_success") by {
      assert "average_success"[0] != "recommendations"[0];
    }
    PDict(d3)
  }

  function StrValues(items: seq<string>): (v: seq<PyValue>)
    ensures |v| == |items|
    ensures forall i :: 0 <= i < |items| ==> v[i] == PStr(items[i])
  {
    seq(|items|, i requires 0 <= i < |items| => PStr(items[i]))
  }

  // ===================== contextual questions =====================

  const CarQuestion: string :=
    "I noticed recent car-related activity. Should we research new automotive tech or modifications?"
  const AiQuestion: string :=
    "Your AI projects are progressing. Want me to explore cutting-edge AI tools or techniques?"
  const RideshareQuestion: string :=
    "For your rideshare work, should we research driver optimization tools or vehicle efficiency mods?"

  function InterestQuestion(topic: string): (q: string)
    ensures |q| > 0 && q[|q| - 1] == '?'
  {
    "I haven't seen much " + topic + " activity lately. Want me to find the latest developments?"
  }

  /** `repr` of a string of printable characters without quotes or
      backslashes in it. */
  function Quote(k: string): string
  {
    "'" + (k + "'")
  }

  /** The items of `str(keys)` for a list of strings: each key quoted, the
      quoted keys separated by ", ". */
  function ReprItems(keys: seq<string>): string
  {
    if keys == [] then ""
    else if |keys| == 1 then Quote(keys[0])
    else Quote(keys[0]) + (", " + ReprItems(keys[1..]))
  }

  /** `str(keys)`, for keys of printable characters without quotes or
      backslashes. */
  function ListRepr(keys: seq<string>): (r: string)
    ensures |r| >= 2 && r[0] == '[' && r[|r| - 1] == ']'
    ensures r == "[]" <==> keys == []
  {
    var items := ReprItems(keys);
    assert keys != [] ==> items[0] == '\'';
    "[" + items + "]"
  }

  /** `generate_contextual_question()`, on the keys of the assistant's memory
      in insertion order, its interests, and the index `pick` that
      `random.choice` draws. */
  function ContextualQuestion(memoryKeys: seq<string>, interests: seq<string>, pick: nat): (q: string)
    requires pick < |interests|
    ensures |q| > 0 && q[|q| - 1] == '?'
  {
    var recent := Lower(ListRepr(Last(memoryKeys, 5)));
    if Contains(recent, "car") then CarQuestion
    else if Contains(recent, "ai") then AiQuestion
    else if Contains(recent, "gig") || Contains(recent, "uber") then RideshareQuestion
    else InterestQuestion(interests[pick])
  }

  /** Some key, lower-cased, contains `word`. */
  predicate Mentions(keys: seq<string>, word: string)
  {
    exists i :: 0 <= i < |keys| && Contains(Lower(keys[i]), word)
  }

  function LowerAll(keys: seq<string>): (r: seq<string>)
    ensures |r| == |keys|
    ensures forall i :: 0 <= i < |keys| ==> r[i] == Lower(keys[i])
  {
    seq(|keys|, i requires 0 <= i < |keys| => Lower(keys[i]))
  }

  /** Lower-casing leaves the punctuation of `str(keys)` alone. */
  lemma {:induction false} LowerReprItems(keys: seq<string>)
    ensures Lower(ReprItems(keys)) == ReprItems(LowerAll(keys))
  {
    if keys != [] {
      var k := keys[0];
      LowerConcat(k, "'");
      LowerConcat("'", k + "'");
      assert Lower(Quote(k)) == Quote(Lower(k));
      if |keys| > 1 {
        LowerReprItems(keys[1..]);
        assert LowerAll(keys[1..]) == LowerAll(keys)[1..];
        LowerConcat(", ", ReprItems(keys[1..]));
        LowerConcat(Quote(k), ", " + ReprItems(keys[1..]));
      }
    }
  }

  /** A quoted word contains exactly the letter words its text contains. */
  lemma QuoteContains(k: string, w: string)
    requires |w| > 0 && AllLetters(w)
    ensures Contains(Quote(k), w) <==> Contains(k, w)
  {
    ContainsAcrossBoundary(k, "'", w);
    ContainsAcrossBoundary("'", k + "'", w);
    NoLetterNoMatch("'", w);
  }

  lemma {:induction false} ReprItemsContains(keys: seq<string>, w: string)
    requires |w| > 0 && AllLetters(w)
    ensures Contains(ReprItems(keys), w) <==> exists i :: 0 <= i < |keys| && Contains(keys[i], w)
  {
    if keys == [] {
      NoLetterNoMatch("", w);
    } else {
      QuoteContains(keys[0], w);
      if |keys| > 1 {
        var tail := keys[1..];
        ReprItemsContains(tail, w);
        var rest := ReprItems(tail);
        ContainsAcrossBoundary(", ", rest, w);
        NoLetterNoMatch(", ", w);
        ContainsAcrossBoundary(Quote(keys[0]), ", " + rest, w);
        if exists i :: 0 <= i < |keys| && Contains(keys[i], w) {
          var i :| 0 <= i < |keys| && Contains(keys[i], w);
          if i > 0 { assert tail[i - 1] == keys[i]; }
        }
        if exists i :: 0 <= i < |tail| && Contains(tail[i], w) {
          var i :| 0 <= i < |tail| && Contains(tail[i], w);
          assert keys[i + 1] == tail[i];
        }
      }
    }
  }

  /** For a word of letters, a match in `str(keys).lower()` is a match inside
      one of the keys: quotes, commas, spaces and brackets never join two keys
      into one word. */
  lemma ReprMentions(keys: seq<string>, word: string)
    requires |word| > 0 && AllLetters(word)
    ensures Contains(Lower(ListRepr(keys)), word) <==> Mentions(keys, word)
  {
    var lowered := LowerAll(keys);
    LowerConcat("[" + ReprItems(keys), "]");
    LowerConcat("[", ReprItems(keys));
    LowerReprItems(keys);
    var inner := ReprItems(lowered);
    assert Lower(ListRepr(keys)) == "[" + inner + "]";
    ContainsAcrossBoundary("[" + inner, "]", word);
    ContainsAcrossBoundary("[", inner, word);
    NoLetterNoMatch("[", word);
    NoLetterNoMatch("]", word);
    ReprItemsContains(lowered, word);
    if Mentions(keys, word) {
      var i :| 0 <= i < |keys| && Contains(Lower(keys[i]), word);
      assert Contains(lowered[i], word);
    }
  }

  /** The question in terms of the keys themselves: the first of "car", "ai",
      "gig"/"uber" that some of the last five keys mentions picks the question. */
  lemma QuestionByKeys(memoryKeys: seq<string>, interests: seq<string>, pick: nat)
    requires pick < |interests|
    ensures var recent := Last(memoryKeys, 5);
      ContextualQuestion(memoryKeys, interests, pick)
      == if Mentions(recent, "car") then CarQuestion
         else if Mentions(recent, "ai") then AiQuestion
         else if Mentions(recent, "gig") || Mentions(recent, "uber") then RideshareQuestion
         else InterestQuestion(interests[pick])
  {
    var recent := Last(memoryKeys, 5);
    ReprMentions(recent, "car");
    ReprMentions(recent, "ai");
    ReprMentions(recent, "gig");
    ReprMentions(recent, "uber");
  }

  lemma DailyUpdateMentionsAi(stamp: string)
    ensures Contains(Lower("daily_update_" + stamp), "ai")
  {
    var key := "daily_update_" + stamp;
    assert key[1] == 'a' && key[2] == 'i';
    var lowered := Lower(key);
    assert lowered[1] == 'a' && lowered[2] == 'i';
    assert lowered[1..3] == "ai";
    assert OccursAt(lowered, "ai", 1);
  }

  /** A daily report key `daily_update_<date>` mentions "ai" (in "daily"), so
      once such a key is among the last five and no recent key mentions "car",
      the question is about AI projects whatever the other keys say. */
  lemma DailyUpdateKeyAsksAboutAi(memoryKeys: seq<string>, stamp: string, interests: seq<string>, pick: nat)
    requires pick < |interests|
    requires exists i :: 0 <= i && |memoryKeys| - 5 <= i < |memoryKeys| && memoryKeys[i] == "daily_update_" + stamp
    requires !Mentions(Last(memoryKeys, 5), "car")
    ensures ContextualQuestion(memoryKeys, interests, pick) == AiQuestion
  {
    RecentDailyUpdateMentionsAi(memoryKeys, stamp);
    QuestionByKeys(memoryKeys, interests, pick);
  }

  lemma RecentDailyUpdateMentionsAi(memoryKeys: seq<string>, stamp: string)
    requires exists i :: 0 <= i && |memoryKeys| - 5 <= i < |memoryKeys| && memoryKeys[i] == "daily_update_" + stamp
    ensures Mentions(Last(memoryKeys, 5), "ai")
  {
    var i :| 0 <= i && |memoryKeys| - 5 <= i < |memoryKeys| && memoryKeys[i] == "daily_update_" + stamp;
    var recent := Last(memoryKeys, 5);
    var j := i - (|memoryKeys| - |recent|);
    assert recent[j] == memoryKeys[i];
    DailyUpdateMentionsAi(stamp);
    assert Contains(Lower(recent[j]), "ai");
  }

  // ===================== the scheduler object =====================

  /** When a job registered with the `schedule` library runs. */
  datatype Period = Daily | Hourly | EveryHours(hours: nat) | OnWeekday(day: string)

  /** A job handed to the `schedule` library: its period, its time of day if
      any, and the name of the function it calls. */
  datatype Job = Job(period: Period, at: Option<string>, functionName: string)

  const DefaultJobs: seq<Job> := [
    Job(Daily, Some("09:00"), "generate_daily_update"),
    Job(EveryHours(6), None, "check_github_repos"),
    Job(EveryHours(3), None, "perform_learning_analysis"),
    Job(OnWeekday("sunday"), Some("02:00"), "cleanup_memory"),
    Job(EveryHours(12), None, "self_improvement_check")
  ]

  /** An entry of `self.tasks`. */
  datatype CustomJob = CustomJob(frequency: string, timeSpec: string, functionName: string,
                                 description: string, added: string)

  /** Why `add_custom_schedule` raised. */
  datatype ScheduleError =
    | NotDayAndTime        // a weekly time spec that does not split into two words
    | RejectedBySchedule   // the `schedule` library refused the day or the time

  function CustomId(n: nat): string
  {
    "custom_" + NatToString(n)
  }

  /** Custom jobs numbered in the order they were added. */
  ghost predicate NumberedInOrder(tasks: Dict<CustomJob>)
  {
    tasks.Valid() && forall i :: 0 <= i < |tasks.keys| ==> tasks.keys[i] == CustomId(i)
  }

  /** A weekly spec of one day and one time, each without a space, splits into
      exactly that day and that time; a spec without a space is a single word,
      which `add_custom_schedule` refuses. */
  lemma WeeklySpecParts(day: string, time: string)
    requires ' ' !in day && ' ' !in time
    ensures Split(day + " " + time, ' ') == [day, time]
    ensures |Split(day, ' ')| == 1
  {
    SplitAround(day, time, ' ');
    SplitNoSep(day, ' ');
    SplitNoSep(time, ' ');
  }

  /** The next id is new, and adding it keeps the numbering. */
  lemma NextCustomId(tasks: Dict<CustomJob>)
    requires NumberedInOrder(tasks)
    ensures CustomId(tasks.Size()) !in tasks.vals
    ensures forall job :: NumberedInOrder(tasks.Put(CustomId(tasks.Size()), job))
  {
    forall i | 0 <= i < |tasks.keys| ensures tasks.keys[i] != CustomId(tasks.Size()) {
      PrefixedNumbersDistinct("custom_", i, tasks.Size());
    }
  }

  class AutonomousScheduler {
    const randy: RandyAI
    var running: bool
    /** `self.tasks`: the custom jobs, by id. */
    var tasks: Dict<CustomJob>
    /** The `schedule` library's job list. */
    var jobs: seq<Job>

    /** The custom jobs are numbered in the order they were added. */
    ghost predicate Valid()
      reads this, randy
    {
      && randy.Valid()
      && NumberedInOrder(tasks)
    }

    /** `AutonomousScheduler(randy_ai)`, registering the default jobs after
        those the library already holds. */
    constructor (randyAi: RandyAI, registered: seq<Job>)
      requires randyAi.Valid()
      ensures Valid()
      ensures randy == randyAi && !running && tasks == Empty()
      ensures jobs == registered + DefaultJobs
    {
      randy := randyAi;
      running := false;
      tasks := Empty();
      jobs := registered + DefaultJobs;
    }

    /** The loop of `self_improvement_check`: one task per area, in order. */
    method CreateImprovementTasks(areas: seq<Area>, now: Instant)
      requires Valid()
      modifies randy`db
      ensures Valid()
      ensures randy.db == old(randy.db).(taskRows := AddTasks(old(randy.db.taskRows), ImprovementTasks(areas, now), now))
    {
      ghost var specs := ImprovementTasks(areas, now);
      ghost var rows := randy.db.taskRows;
      var i := 0;
      while i < |areas|
        invariant 0 <= i <= |areas|
        invariant Valid()
        invariant randy.db == old(randy.db).(taskRows := AddTasks(rows, specs[..i], now))
      {
        var area := areas[i];
        ghost var done := specs[..i + 1];
        assert done[..|done| - 1] == specs[..i] && done[|done| - 1] == specs[i];
        var id := randy.CreateTask(now, "Improve: " + area.title, area.description, area.priority,
                                  Some(HoursAfter(now, area.dueHours)));
        i := i + 1;
      }
      assert specs[..i] == specs;
    }

    /** `self_improvement_check()`: one task per improvement area, then the
        report, at the single instant `clock.now`. */
    method SelfImprovementCheck(clock: Clock)
      requires Valid()
      modifies randy`db, randy`memory
      ensures Valid()
      ensures var areas := ImprovementAreas(old(randy.memory), old(randy.learningData), clock);
        var key := "improvement_check_" + clock.minuteStamp;
        && randy.db == old(randy.db).(
             taskRows := AddTasks(old(randy.db.taskRows), ImprovementTasks(areas, clock.now), clock.now),
             memoryRows := SaveRow(old(randy.db.memoryRows), key,
                                   Encode(randy.json, ImprovementReport(clock.iso, areas)), "self_improvement"))
        && randy.memory == old(randy.memory).Put(key, ImprovementReport(clock.iso, areas))
    {
      var areas := ImprovementAreas(randy.memory, randy.learningData, clock);
      CreateImprovementTasks(areas, clock.now);
      randy.SaveMemory("improvement_check_" + clock.minuteStamp, ImprovementReport(clock.iso, areas),
                       "self_improvement");
    }

    /** `create_adaptive_tasks(insights)` */
    method CreateAdaptiveTasks(insights: string, clock: Clock)
      requires Valid()
      modifies randy`db
      ensures Valid()
      ensures randy.db == old(randy.db).(taskRows := AddTasks(old(randy.db.taskRows),
                                                             AdaptiveTasks(insights, clock.now), clock.now))
    {
      var text := Lower(insights);
      ghost var rows := randy.db.taskRows;
      ghost var created: seq<TaskSpec> := [];
      if Contains(text, "github") {
        var spec := GitHubReview(clock.now);
        var id := randy.CreateTask(clock.now, spec.title, spec.description, spec.priority, spec.due);
        created := [spec];
        assert created[..0] == [];
      }
      assert randy.db == old(randy.db).(taskRows := AddTasks(rows, created, clock.now));
      if Contains(text, "learning") {
        var spec := LearningSession(clock.now);
        var id := randy.CreateTask(clock.now, spec.title, spec.description, spec.priority, spec.due);
        ghost var before := created;
        created := created + [spec];
        assert created[..|created| - 1] == before;
      }
      assert created == AdaptiveTasks(insights, clock.now);
    }

    /** `perform_learning_analysis()`: the last ten interactions this instance
        recorded are averaged and the report is saved; with none, nothing is
        written. */
    method PerformLearningAnalysis(clock: Clock)
      requires Valid()
      modifies randy`db, randy`memory
      ensures Valid()
      ensures old(randy.learningData) == [] ==> randy.db == old(randy.db) && randy.memory == old(randy.memory)
      ensures old(randy.learningData) != [] ==>
        var analysed := Last(old(randy.learningData), 10);
        var key := "learning_analysis_" + clock.minuteStamp;
        && randy.db == old(randy.db).(memoryRows := SaveRow(old(randy.db.memoryRows), key,
                                         Encode(randy.json, LearningReport(clock.iso, analysed)), "analysis"))
        && randy.memory == old(randy.memory).Put(key, LearningReport(clock.iso, analysed))
    {
      var recent := Last(randy.learningData, 10);
      if recent != [] {
        randy.SaveMemory("learning_analysis_" + clock.minuteStamp, LearningReport(clock.iso, recent), "analysis");
      }
    }

    /** `add_custom_schedule(frequency, time_spec, functionName, description)`.
        `accepted` is whether the `schedule` library takes the day and time it
        is handed; a refusal, or a weekly spec that is not two words, raises
        before anything is recorded. Any other frequency registers no job but
        is still recorded. */
    method AddCustomSchedule(frequency: string, timeSpec: string, functionName: string, description: string,
                             clock: Clock, accepted: bool)
      returns (r: Result<string, ScheduleError>)
      requires Valid()
      modifies this`tasks, this`jobs
      ensures Valid()
      ensures r.Failure? ==> tasks == old(tasks) && jobs == old(jobs)
      ensures r.Failure? <==>
        || (frequency == "daily" && !accepted)
        || (frequency == "weekly" && (|Split(timeSpec, ' ')| != 2 || !accepted))
      ensures r.Failure? && frequency == "weekly" && |Split(timeSpec, ' ')| != 2 ==> r.error == NotDayAndTime
      ensures r.Success? ==>
        && r.value == CustomId(old(tasks.Size()))
        && r.value !in old(tasks.vals)
        && tasks.keys == old(tasks.keys) + [r.value]
        && tasks.Get(r.value) == Some(CustomJob(frequency, timeSpec, functionName, description, clock.iso))
        && (forall k :: k != r.value ==> tasks.Get(k) == old(tasks.Get(k)))
      ensures r.Success? ==>
        jobs == old(jobs) + (
          if frequency == "daily" then [Job(Daily, Some(timeSpec), functionName)]
          else if frequency == "hourly" then [Job(Hourly, None, functionName)]
          else if frequency == "weekly" then
            [Job(OnWeekday(Lower(Split(timeSpec, ' ')[0])), Some(Split(timeSpec, ' ')[1]), functionName)]
          else [])
    {
      var taskId := CustomId(tasks.Size());
      if frequency == "daily" {
        if !accepted { return Failure(RejectedBySchedule); }
        jobs := jobs + [Job(Daily, Some(timeSpec), functionName)];
      } else if frequency == "hourly" {
        jobs := jobs + [Job(Hourly, None, functionName)];
      } else if frequency == "weekly" {
        var parts := Split(timeSpec, ' ');
        if |parts| != 2 { return Failure(NotDayAndTime); }
        if !accepted { return Failure(RejectedBySchedule); }
        jobs := jobs + [Job(OnWeekday(Lower(parts[0])), Some(parts[1]), functionName)];
      }
      NextCustomId(tasks);
      tasks := tasks.Put(taskId, CustomJob(frequency, timeSpec, functionName, description, clock.iso));
      r := Success(taskId);
    }
  }

  /** `QuestionGenerator(randy_ai)` */
  class QuestionGenerator {
    const randy: RandyAI

    constructor (randyAi: RandyAI)
      ensures randy == randyAi
    {
      randy := randyAi;
    }

    /** `generate_contextual_question()`, with `pick` the index `random.choice`
        draws from the interests. */
    method GenerateContextualQuestion(pick: nat) returns (q: string)
      requires pick < |randy.preferences.interests|
      ensures q == ContextualQuestion(randy.memory.keys, randy.preferences.interests, pick)
      ensures |q| > 0 && q[|q| - 1] == '?'
    {
      var interests := randy.preferences.interests;
      var recentMemory := Last(randy.memory.keys, 5);
      var recent := Lower(ListRepr(recentMemory));
      if Contains(recent, "car") {
        q := CarQuestion;
      } else if Contains(recent, "ai") {
        q := AiQuestion;
      } else if Contains(recent, "gig") || Contains(recent, "uber") {
        q := RideshareQuestion;
      } else {
        q := InterestQuestion(interests[pick]);
      }
    }
  }
}
