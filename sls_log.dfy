/**
 * The level and singleton bookkeeping of the logger in slscore/SLSLog.cpp
 * (CSLSLog). Formatting, timestamps, console and file output are not
 * modelled: a file handle is a flag saying whether the file is open, and the
 * result of fopen is a parameter.
 */
module SLSLog {

  datatype Option<T> = None | Some(value: T)

  /** The level names, indexed by level (LOG_LEVEL_NAME). */
  const LevelNames: seq<string> := ["FATAL", "ERROR", "WARNING", "INFO", "DEBUG", "TRACE"]

  /** The level constants, in the order of LevelNames. */
  const LevelFatal := 0
  const LevelError := 1
  const LevelWarning := 2
  const LevelInfo := 3
  const LevelDebug := 4
  const LevelTrace := 5

  predicate IsLower(c: char) { 'a' <= c <= 'z' }

  /** ASCII upper-casing of a level name before it is looked up. */
  function ToUpper(s: string): (r: string)
    ensures |r| == |s|
    ensures forall i :: 0 <= i < |s| && IsLower(s[i]) ==> r[i] == (s[i] as int - 32) as char
    ensures forall i :: 0 <= i < |s| && !IsLower(s[i]) ==> r[i] == s[i]
  {
    if s == [] then []
    else [if IsLower(s[0]) then (s[0] as int - 32) as char else s[0]] + ToUpper(s[1..])
  }

  /**
   * Linear search of LevelNames from index `from`: the first index whose name
   * equals `name`, or None when no remaining entry does.
   */
  function FindLevel(name: string, from: nat): (r: Option<nat>)
    requires from <= |LevelNames|
    decreases |LevelNames| - from
    ensures r.Some? ==> from <= r.value < |LevelNames| && LevelNames[r.value] == name
    ensures r.Some? ==> forall j :: from <= j < r.value ==> LevelNames[j] != name
    ensures r.None? <==> forall j :: from <= j < |LevelNames| ==> LevelNames[j] != name
  {
    if from == |LevelNames| then None
    else if LevelNames[from] == name then Some(from)
    else FindLevel(name, from + 1)
  }

  /** The level a name selects, compared after upper-casing. */
  function LevelOf(name: string): (r: Option<nat>)
    ensures r.Some? ==> r.value < |LevelNames| && LevelNames[r.value] == ToUpper(name)
    ensures r.None? <==> forall j :: 0 <= j < |LevelNames| ==> LevelNames[j] != ToUpper(name)
  {
    FindLevel(ToUpper(name), 0)
  }

  /** No two levels share a name. */
  lemma LevelNamesDistinct()
    ensures forall i, j :: 0 <= i < j < |LevelNames| ==> LevelNames[i] != LevelNames[j]
  {
  }

  /** Upper-casing is the identity on a string with no lower-case letter. */
  lemma ToUpperFixesUpper(s: string)
    requires forall i :: 0 <= i < |s| ==> !IsLower(s[i])
    ensures ToUpper(s) == s
  {
  }

  /** Upper-casing is idempotent, so a name and its upper-case form select the same level. */
  lemma ToUpperIdempotent(s: string)
    ensures ToUpper(ToUpper(s)) == ToUpper(s)
    ensures LevelOf(ToUpper(s)) == LevelOf(s)
  {
  }

  /** Each table name selects exactly its own index. */
  lemma LevelOfTableName(i: nat)
    requires i < |LevelNames|
    ensures LevelOf(LevelNames[i]) == Some(i)
  {
  }

  /** A name whose upper-case form is table entry i selects exactly level i. */
  lemma LevelOfUpperName(name: string, i: nat)
    requires i < |LevelNames| && ToUpper(name) == LevelNames[i]
    ensures LevelOf(name) == Some(i)
  {
    ToUpperIdempotent(name);
    LevelOfTableName(i);
  }

  /** Matching ignores case: "debug" selects DEBUG. */
  lemma LevelOfDebug()
    ensures LevelOf("debug") == Some(LevelDebug)
  {
  }

  /** A name outside the table selects nothing. */
  lemma LevelOfUnknown()
    ensures LevelOf("verbose") == None
  {
  }

  /** The logger instance: current level, whether a log file is open, and its recorded name. */
  class Logger {
    var level: int
    var fileOpen: bool
    var filename: string

    /** The constructor defaults: level INFO, no file, empty file name. */
    constructor ()
      ensures level == LevelInfo && !fileOpen && filename == []
    {
      level := LevelInfo;
      fileOpen := false;
      filename := [];
    }

    /** The destructor closes the log file if one is open. */
    method Close()
      modifies this`fileOpen
      ensures !fileOpen
    {
      if fileOpen {
        fileOpen := false;
      }
    }
  }

  /** The observable state of a logger instance. */
  datatype LogState = LogState(level: int, fileOpen: bool, filename: string)

  /** The state of a freshly constructed instance. */
  const Defaults := LogState(LevelInfo, false, [])

  /** The instance a lazily creating operation works on. */
  function OrDefaults(s: Option<LogState>): LogState
  {
    match s
    case Some(st) => st
    case None => Defaults
  }

  /** The process-wide instance pointer (the static m_pInstance) and the static operations. */
  class LogSystem {
    var instance: Logger?

    /** The state of the installed instance, if any. */
    ghost function Current(): Option<LogState>
      reads this, instance
    {
      if instance == null then None
      else Some(LogState(instance.level, instance.fileOpen, instance.filename))
    }

    /** Before any call, no instance exists. */
    constructor ()
      ensures instance == null
    {
      instance := null;
    }

    /** Installs an instance with the constructor defaults when none exists. */
    method Lazy()
      modifies this
      ensures instance != null
      ensures old(instance) == null ==> fresh(instance)
      ensures old(instance) != null ==> instance == old(instance)
      ensures Current() == Some(OrDefaults(old(Current())))
    {
      if instance == null {
        instance := new Logger();
      }
    }

    /**
     * create_instance: returns 0 and installs an instance at level ERROR only
     * when none exists; otherwise returns -1 and changes nothing.
     */
    method CreateInstance() returns (r: int)
      modifies this
      ensures old(instance) == null ==>
        r == 0 && fresh(instance) && Current() == Some(Defaults.(level := LevelError))
      ensures old(instance) != null ==>
        r == -1 && instance == old(instance) && Current() == old(Current())
    {
      if instance == null {
        instance := new Logger();
        instance.level := LevelError;
        return 0;
      }
      return -1;
    }

    /** destory_instance: always returns 0 and leaves no instance; an open file is closed. */
    method DestroyInstance() returns (r: int)
      modifies this, instance
      ensures r == 0 && instance == null
      ensures old(instance) != null ==> !old(instance).fileOpen
    {
      if instance != null {
        instance.Close();
        instance := null;
      }
      r := 0;
    }

    /**
     * log: creates the instance lazily, then emits iff the message level is
     * not above the current level. The instance state is not changed.
     */
    method Log(level: int) returns (emitted: bool)
      modifies this
      ensures instance != null
      ensures old(instance) == null ==> fresh(instance)
      ensures old(instance) != null ==> instance == old(instance)
      ensures Current() == Some(OrDefaults(old(Current())))
      ensures emitted <==> level <= OrDefaults(old(Current())).level
    {
      Lazy();
      if level > instance.level {
        return false;
      }
      emitted := true;
    }

    /**
     * set_log_level: creates the instance lazily, then sets the level to the
     * index of the table entry equal to the upper-cased name. A name matching
     * no entry leaves the level unchanged.
     */
    method SetLogLevel(name: string)
      modifies this, instance
      ensures instance != null
      ensures old(instance) == null ==> fresh(instance)
      ensures old(instance) != null ==> instance == old(instance)
      ensures LevelOf(name).Some? ==>
        Current() == Some(OrDefaults(old(Current())).(level := LevelOf(name).value))
      ensures LevelOf(name).None? ==> Current() == Some(OrDefaults(old(Current())))
    {
      Lazy();
      var upper := ToUpper(name);
      var n := |LevelNames|;
      for i := 0 to n
        invariant instance != null && Current() == Some(OrDefaults(old(Current())))
        invariant forall j :: 0 <= j < i ==> LevelNames[j] != upper
      {
        if upper == LevelNames[i] {
          instance.level := i;
          return;
        }
      }
    }

    /**
     * set_log_file: creates the instance lazily; only while no file name is
     * recorded does it record `name` and open the file, `openOk` being
     * whether fopen succeeded. Later calls change nothing.
     */
    method SetLogFile(name: string, openOk: bool)
      modifies this, instance
      ensures instance != null
      ensures old(instance) == null ==> fresh(instance)
      ensures old(instance) != null ==> instance == old(instance)
      ensures OrDefaults(old(Current())).filename == [] ==>
        Current() == Some(OrDefaults(old(Current())).(filename := name, fileOpen := openOk))
      ensures OrDefaults(old(Current())).filename != [] ==> Current() == Some(OrDefaults(old(Current())))
    {
      Lazy();
      if instance.filename == [] {
        instance.filename := name;
        instance.fileOpen := openOk;
      }
    }
  }

  /** Once a non-empty file name is recorded, later set_log_file calls keep it. */
  method SetLogFileOnce(sys: LogSystem, first: string, second: string, firstOk: bool, secondOk: bool)
    requires sys.instance == null || sys.instance.filename == []
    requires first != []
    modifies sys, sys.instance
    ensures sys.instance != null && sys.instance.filename == first
  {
    sys.SetLogFile(first, firstOk);
    sys.SetLogFile(second, secondOk);
  }

  /**
   * An instance created lazily by log makes a later create_instance fail, so
   * the level stays at the constructor default INFO rather than ERROR.
   */
  method LogThenCreate(sys: LogSystem, level: int) returns (r: int)
    requires sys.instance == null
    modifies sys
    ensures r == -1
    ensures sys.Current() == Some(Defaults)
  {
    var _ := sys.Log(level);
    r := sys.CreateInstance();
  }
}
