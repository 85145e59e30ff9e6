/**
 * The formatter and the filter of config/loggers/loggers.py.  `SafeFormatter`
 * retries a failed format once after giving the record placeholder values
 * for the request attributes it lacks; `MaxLevelFilter` passes the records
 * below a level.  The base `logging.Formatter.format` is the parameter
 * `base`: it renders a record's attributes or fails with an exception kind.
 */
module LogFormat {
  import opened Values
  import opened LogLevels

  /** The exceptions the base formatter may raise. */
  datatype FormatError = KeyError | ValueError | OtherError(name: string)

  /** The two kinds the formatter recovers from. */
  predicate Recoverable(e: FormatError)
  {
    e == KeyError || e == ValueError
  }

  /** A log record: its level number and its attributes by name. */
  class LogRecord {
    var levelno: int
    var attrs: map<string, Value>

    constructor (levelno: int, attrs: map<string, Value>)
      ensures this.levelno == levelno && this.attrs == attrs
    {
      this.levelno := levelno;
      this.attrs := attrs;
    }
  }

  /** The placeholders, in the order the formatter tries them. */
  const Defaults: seq<(string, Value)> := [
    ("user", Str("!MISSING_user!")),
    ("ip", Str("!MISSING_ip!")),
    ("request_id", Str("!MISSING_request_id!")),
    ("method", Str("!MISSING_method!")),
    ("path", Str("!MISSING_path!")),
    ("status_code", Str("!MISSING_status_code!")),
    ("duration", Real(0.0))
  ]

  /** The attributes after `setattr` of each placeholder the record does not have yet, in order. */
  function FillMissing(attrs: map<string, Value>, defaults: seq<(string, Value)>): map<string, Value>
    decreases |defaults|
  {
    if defaults == [] then attrs
    else
      var prev := FillMissing(attrs, defaults[..|defaults| - 1]);
      var (key, v) := defaults[|defaults| - 1];
      if key in prev then prev else prev[key := v]
  }

  /** Placeholder names listed once each. */
  predicate DistinctNames(defaults: seq<(string, Value)>)
  {
    forall i, j :: 0 <= i < j < |defaults| ==> defaults[i].0 != defaults[j].0
  }

  /** Filling never overwrites an attribute the record had. */
  lemma {:induction false} FillKeepsPresent(attrs: map<string, Value>, defaults: seq<(string, Value)>)
    ensures forall k :: k in attrs ==> k in FillMissing(attrs, defaults) && FillMissing(attrs, defaults)[k] == attrs[k]
    decreases |defaults|
  {
    if defaults != [] {
      FillKeepsPresent(attrs, defaults[..|defaults| - 1]);
    }
  }

  /** After filling, every placeholder name is present. */
  lemma {:induction false} FillCoversDefaults(attrs: map<string, Value>, defaults: seq<(string, Value)>)
    ensures forall i :: 0 <= i < |defaults| ==> defaults[i].0 in FillMissing(attrs, defaults)
    decreases |defaults|
  {
    if defaults != [] {
      var init := defaults[..|defaults| - 1];
      FillCoversDefaults(attrs, init);
      assert forall i :: 0 <= i < |init| ==> init[i] == defaults[i];
    }
  }

  /** Filling adds no name other than the placeholders'. */
  lemma {:induction false} FillAddsOnlyDefaults(attrs: map<string, Value>, defaults: seq<(string, Value)>)
    ensures forall k :: k in FillMissing(attrs, defaults) ==>
      k in attrs || exists i :: 0 <= i < |defaults| && defaults[i].0 == k
    decreases |defaults|
  {
    if defaults != [] {
      var init := defaults[..|defaults| - 1];
      FillAddsOnlyDefaults(attrs, init);
      var prev := FillMissing(attrs, init);
      forall k | k in FillMissing(attrs, defaults) && k !in attrs
        ensures exists i :: 0 <= i < |defaults| && defaults[i].0 == k
      {
        if k !in prev {
          assert defaults[|defaults| - 1].0 == k;
        } else {
          var i :| 0 <= i < |init| && init[i].0 == k;
          assert defaults[i].0 == k;
        }
      }
    }
  }

  /** With distinct names, an attribute the record lacked gets its placeholder value. */
  lemma {:induction false} FillSetsMissing(attrs: map<string, Value>, defaults: seq<(string, Value)>)
    requires DistinctNames(defaults)
    ensures forall i :: 0 <= i < |defaults| && defaults[i].0 !in attrs ==>
      defaults[i].0 in FillMissing(attrs, defaults) && FillMissing(attrs, defaults)[defaults[i].0] == defaults[i].1
    decreases |defaults|
  {
    FillCoversDefaults(attrs, defaults);
    if defaults != [] {
      var init := defaults[..|defaults| - 1];
      var last := defaults[|defaults| - 1];
      assert forall i :: 0 <= i < |init| ==> init[i] == defaults[i];
      FillSetsMissing(attrs, init);
      if last.0 !in attrs {
        assert forall i :: 0 <= i < |init| ==> init[i].0 != last.0 by {
          assert forall i :: 0 <= i < |init| ==> defaults[i].0 != defaults[|defaults| - 1].0;
        }
        UnlistedStaysAbsent(attrs, init, last.0);
      }
    }
  }

  /** A name neither present nor listed is still absent after filling. */
  lemma {:induction false} UnlistedStaysAbsent(attrs: map<string, Value>, defaults: seq<(string, Value)>, key: string)
    requires key !in attrs
    requires forall i :: 0 <= i < |defaults| ==> defaults[i].0 != key
    ensures key !in FillMissing(attrs, defaults)
    decreases |defaults|
  {
    if defaults != [] {
      var init := defaults[..|defaults| - 1];
      assert forall i :: 0 <= i < |init| ==> init[i] == defaults[i];
      UnlistedStaysAbsent(attrs, init, key);
    }
  }

  /** Filling twice is filling once. */
  lemma {:induction false} FillMissingIdempotent(attrs: map<string, Value>, defaults: seq<(string, Value)>)
    ensures FillMissing(FillMissing(attrs, defaults), defaults) == FillMissing(attrs, defaults)
  {
    var once := FillMissing(attrs, defaults);
    FillCoversDefaults(attrs, defaults);
    AlreadyFilled(once, defaults);
  }

  /** A record that has every placeholder name is left as it is. */
  lemma {:induction false} AlreadyFilled(attrs: map<string, Value>, defaults: seq<(string, Value)>)
    requires forall i :: 0 <= i < |defaults| ==> defaults[i].0 in attrs
    ensures FillMissing(attrs, defaults) == attrs
    decreases |defaults|
  {
    if defaults != [] {
      AlreadyFilled(attrs, defaults[..|defaults| - 1]);
      assert defaults[|defaults| - 1].0 in attrs;
    }
  }

  /**
   * With the formatter's own placeholders: an absent request attribute
   * gets "!MISSING_<name>!" (duration 0.0), a present one keeps its value.
   */
  lemma PlaceholdersFilled(attrs: map<string, Value>)
    ensures var r := FillMissing(attrs, Defaults);
      && (forall k :: k in attrs ==> k in r && r[k] == attrs[k])
      && (forall i :: 0 <= i < |Defaults| ==> Defaults[i].0 in r)
      && (forall i :: 0 <= i < |Defaults| && Defaults[i].0 !in attrs ==> r[Defaults[i].0] == Defaults[i].1)
  {
    assert DistinctNames(Defaults);
    FillKeepsPresent(attrs, Defaults);
    FillCoversDefaults(attrs, Defaults);
    FillSetsMissing(attrs, Defaults);
  }

  /** `SafeFormatter`. */
  class SafeFormatter {
    constructor ()
    {
    }

    /**
     * `SafeFormatter.format`: the first result if the base formatter
     * succeeds or fails with anything but KeyError or ValueError, the record
     * untouched; otherwise the record gets the missing placeholders and the
     * result is exactly one more base attempt, whose failure propagates.
     */
    method Format(record: LogRecord, base: map<string, Value> -> Result<string, FormatError>)
      returns (r: Result<string, FormatError>)
      modifies record
      ensures var first := base(old(record.attrs));
        && (!(first.Err? && Recoverable(first.error)) ==> r == first && unchanged(record))
        && (first.Err? && Recoverable(first.error) ==>
              && record.attrs == FillMissing(old(record.attrs), Defaults)
              && record.levelno == old(record.levelno)
              && r == base(record.attrs))
    {
      var first := base(record.attrs);
      if !(first.Err? && Recoverable(first.error)) {
        return first;
      }
      ghost var attrs0 := record.attrs;
      var i := 0;
      while i < |Defaults|
        invariant 0 <= i <= |Defaults|
        invariant record.attrs == FillMissing(attrs0, Defaults[..i])
        invariant record.levelno == old(record.levelno)
      {
        var (key, default) := Defaults[i];
        assert Defaults[..i + 1][..i] == Defaults[..i];
        if key !in record.attrs {
          record.attrs := record.attrs[key := default];
        }
        i := i + 1;
      }
      assert Defaults[..i] == Defaults;
      r := base(record.attrs);
    }
  }

  /** The comparison of `MaxLevelFilter.filter`: a record passes strictly below the cap. */
  predicate Passes(levelno: int, maxLevel: int)
  {
    levelno < maxLevel
  }

  /** `MaxLevelFilter`. */
  class MaxLevelFilter {
    const maxLevel: int

    constructor (maxLevel: int)
      ensures this.maxLevel == maxLevel
    {
      this.maxLevel := maxLevel;
    }

    /** `filter`: records strictly below `max_level` pass. */
    method Filter(record: LogRecord) returns (pass: bool)
      ensures pass <==> record.levelno < maxLevel
      ensures pass == Passes(record.levelno, maxLevel)
    {
      pass := record.levelno < maxLevel;
    }
  }

  /**
   * A filter whose `max_level` is `logging.WARNING` passes the DEBUG and INFO
   * records and nothing at WARNING or above.
   */
  lemma WarningCapPassesDebugAndInfoOnly(l: Level)
    ensures Passes(LevelNo(l), LevelNo(Warning)) <==> l == Debug || l == Info
  {
  }
}
