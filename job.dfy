/**
 The job record of the cracking-job queue (package `common`, file job.go):
 the `Job` struct, the two ways of making one (`EmptyJob`, `NewJob`) and the
 filter `CleanJobParamsForLogging`, which drops the parameters that may carry
 hashes or user-supplied dictionary content before a job's parameters are
 written to a log.
 */
module Common {

  /** Go's `int64`. */
  newtype Int64 = x: int | -0x8000_0000_0000_0000 <= x < 0x8000_0000_0000_0000

  /** Placeholder for Go's `time.Time`: the value is only stored here.
      `Time(0)` stands for Go's zero instant. */
  datatype Time = Time(ticks: int)

  const ZeroTime: Time := Time(0)

  /** Placeholder for Go's `float64`, kept as its IEEE 754 bit pattern and
      only stored here. All-zero bits are `+0.0`, Go's zero value. */
  datatype Float64 = Float64(bits: bv64)

  const ZeroFloat: Float64 := Float64(0)

  /** The status given to every job made by `NewJob`. `STATUS_CREATED` is
      declared outside job.go, so `"Created"` is a stand-in value, not the
      program's string; only its name matters to this model. */
  const StatusCreated: string := "Created"

  /** One unit of work for the queue, field for field as the Go struct. */
  datatype Job = Job(
    UUID: string,
    ToolUUID: string,
    Name: string,
    Status: string,
    Error: string,
    StartTime: Time,
    PurgeTime: Time,
    RunTime: Time,
    ETC: string,
    Owner: string,
    TeamVisible: seq<string>,
    ResAssigned: string,
    CrackedHashes: Int64,
    TotalHashes: Int64,
    Progress: Float64,
    Parameters: map<string, string>,
    PerformanceData: map<string, string>,
    PerformanceTitle: string,
    OutputData: seq<seq<string>>,
    OutputTitles: seq<string>
  )

  /** Every field that records execution or results (error, times, estimate,
      team visibility, assigned resource, counters, progress, performance
      title and the output table) holds Go's zero value: the job has not been
      touched by the queue yet. */
  predicate Untouched(j: Job)
  {
    && j.Error == ""
    && j.StartTime == ZeroTime
    && j.PurgeTime == ZeroTime
    && j.RunTime == ZeroTime
    && j.ETC == ""
    && j.TeamVisible == []
    && j.ResAssigned == ""
    && j.CrackedHashes == 0
    && j.TotalHashes == 0
    && j.Progress == ZeroFloat
    && j.PerformanceTitle == ""
    && j.OutputData == []
    && j.OutputTitles == []
  }

  /** `EmptyJob`: Go's zero `Job` with `Parameters` set to an empty map.
      `PerformanceData` is left at its zero value, which in Go is a nil map;
      Dafny has no nil map, so it reads as empty here. */
  function EmptyJob(): (j: Job)
    ensures Untouched(j)
    ensures j.UUID == "" && j.ToolUUID == "" && j.Name == ""
    ensures j.Status == "" && j.Owner == ""
    ensures j.Parameters == map[] && j.PerformanceData == map[]
  {
    Job("", "", "", "", "", ZeroTime, ZeroTime, ZeroTime, "", "", [], "",
        0, 0, ZeroFloat, map[], map[], "", [], [])
  }

  /** `NewJob`, with the value of `uuid.New()` supplied as `id`. */
  function NewJob(id: string, toolUUID: string, name: string, owner: string,
                  params: map<string, string>): (j: Job)
    ensures Untouched(j)
    ensures j.UUID == id
    ensures j.ToolUUID == toolUUID && j.Name == name && j.Owner == owner
    ensures j.Parameters == params
    ensures j.Status == StatusCreated
    ensures j.PerformanceData == map[]
  {
    Job(id, toolUUID, name, StatusCreated, "", ZeroTime, ZeroTime, ZeroTime,
        "", owner, [], "", 0, 0, ZeroFloat, params, map[], "", [], [])
  }

  /** A new job is the empty job with exactly the identity, tool, name,
      status, owner and parameters filled in; nothing else is set. */
  lemma NewJobIsFilledEmptyJob(id: string, toolUUID: string, name: string,
                               owner: string, params: map<string, string>)
    ensures NewJob(id, toolUUID, name, owner, params)
         == EmptyJob().(UUID := id, ToolUUID := toolUUID, Name := name,
                        Status := StatusCreated, Owner := owner,
                        Parameters := params)
  {
  }

  /** The identity of a new job is the generator's value and nothing else:
      two jobs made from the same arguments differ exactly when the
      generator gave them different ids. */
  lemma NewJobIdentity(id1: string, id2: string, toolUUID: string, name: string,
                       owner: string, params: map<string, string>)
    ensures (NewJob(id1, toolUUID, name, owner, params).UUID
             != NewJob(id2, toolUUID, name, owner, params).UUID) <==> id1 != id2
    ensures (NewJob(id1, toolUUID, name, owner, params)
             == NewJob(id2, toolUUID, name, owner, params)) <==> id1 == id2
  {
  }

  // ---------------------------------------------------------------------
  // Parameter sanitization for logging

  /** The parameter names whose values must never reach a log. */
  const Denylist: set<string> :=
    {"hashes_multiline", "hashes_file_upload", "dict_use_custom_prepend",
     "dict_rules_use_custom", "dict_rules_custom_file"}

  /** The test the Go loop applies to each key: five exact, case-sensitive
      string comparisons. */
  predicate Loggable(k: string)
  {
    && k != "hashes_multiline"
    && k != "hashes_file_upload"
    && k != "dict_use_custom_prepend"
    && k != "dict_rules_use_custom"
    && k != "dict_rules_custom_file"
  }

  /** The chain of comparisons and the denylist agree on every key. */
  lemma LoggableIffNotDenylisted(k: string)
    ensures Loggable(k) <==> k !in Denylist
  {
  }

  /** The parameters that may be logged: every entry whose key is not
      denylisted, with its value unchanged. */
  function LoggableParams(params: map<string, string>): (r: map<string, string>)
    ensures forall k :: k in Denylist ==> k !in r
    ensures forall k :: k in params && k !in Denylist ==> k in r && r[k] == params[k]
    ensures r.Keys <= params.Keys
  {
    map k | k in params && k !in Denylist :: params[k]
  }

  /** `CleanJobParamsForLogging`: visits the parameters one key at a time
      and copies each loggable entry into a fresh map. */
  method CleanJobParamsForLogging(j: Job) returns (logParam: map<string, string>)
    ensures logParam == LoggableParams(j.Parameters)
  {
    logParam := map[];
    var unvisited := j.Parameters.Keys;
    while unvisited != {}
      invariant unvisited <= j.Parameters.Keys
      invariant logParam == LoggableParams(j.Parameters - unvisited)
      decreases |unvisited|
    {
      var k :| k in unvisited;
      var v := j.Parameters[k];
      if Loggable(k) {
        logParam := logParam[k := v];
      }
      unvisited := unvisited - {k};
    }
    assert j.Parameters - unvisited == j.Parameters;
  }

  /** Any map that keeps exactly the non-denylisted keys of `params`, each with
      its value, is the cleaned map: the three properties of `LoggableParams`
      determine it. */
  lemma LoggableParamsUnique(params: map<string, string>, r: map<string, string>)
    requires forall k :: k in Denylist ==> k !in r
    requires forall k :: k in params && k !in Denylist ==> k in r && r[k] == params[k]
    requires r.Keys <= params.Keys
    ensures r == LoggableParams(params)
  {
  }

  /** Adding a parameter and then cleaning is cleaning and then adding it,
      unless it is denylisted, in which case it is dropped. */
  lemma LoggableParamsInsert(params: map<string, string>, k: string, v: string)
    ensures LoggableParams(params[k := v])
         == if k in Denylist then LoggableParams(params - {k})
            else LoggableParams(params)[k := v]
  {
  }

  /** Cleaning no parameters gives no parameters. */
  lemma LoggableParamsEmpty()
    ensures LoggableParams(map[]) == map[]
  {
  }

  /** Cleaning an already cleaned map changes nothing; in particular a job
      whose parameters are already the cleaned map cleans to that same map. */
  lemma LoggableParamsIdempotent(params: map<string, string>)
    ensures LoggableParams(LoggableParams(params)) == LoggableParams(params)
  {
  }

  /** Exactly the denylisted entries are dropped: the cleaned map has as many
      entries as the job's parameters minus those whose key is denylisted. */
  lemma {:induction false} LoggableParamsSize(params: map<string, string>)
    ensures |LoggableParams(params)| + |params.Keys * Denylist| == |params|
  {
    var r := LoggableParams(params);
    assert r.Keys == params.Keys - Denylist;
    assert (params.Keys - Denylist) + (params.Keys * Denylist) == params.Keys;
    assert (params.Keys - Denylist) !! (params.Keys * Denylist);
  }

  /** A worked example: the two denylisted entries go, the word list stays. */
  lemma CleanExample()
    ensures LoggableParams(map["hashes_multiline" := "abc", "wordlist" := "rockyou",
                               "dict_rules_use_custom" := "true"])
         == map["wordlist" := "rockyou"]
  {
  }
}
