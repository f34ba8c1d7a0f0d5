/** The environment-driven settings of `settings.py` and `src/settings.py`. The environment
    (after the `.env` file is loaded) is a map from variable name to text; `os.getenv` of an
    unset variable gives its default, or None when no default is given. */
module Settings {
  import opened Wrappers
  import opened Strings

  /** `parse_list(value)`: the comma-separated pieces, stripped, with blank pieces dropped. */
  function ParseList(value: string): (r: seq<string>)
    ensures forall k :: 0 <= k < |r| ==> r[k] != "" && Strip(r[k]) == r[k] && ',' !in r[k]
  {
    Kept(Split(value, ','))
  }

  /** The stripped pieces that are not blank, in order. */
  function Kept(pieces: seq<string>): (r: seq<string>)
    requires forall k :: 0 <= k < |pieces| ==> ',' !in pieces[k]
    ensures |r| <= |pieces|
    ensures forall k :: 0 <= k < |r| ==> r[k] != "" && Strip(r[k]) == r[k] && ',' !in r[k]
  {
    if |pieces| == 0 then []
    else
      var rest := Kept(pieces[1..]);
      var p := Strip(pieces[0]);
      if p == "" then rest
      else
        StripUnpadded(p);
        StripSubstring(pieces[0]);
        [p] + rest
  }

  /** The stripped text is a piece of the original, so it holds no character the original
      does not. */
  lemma StripSubstring(s: string)
    ensures forall c :: c in Strip(s) ==> c in s
  {
    var l := TrimLeft(s);
    assert forall c :: c in TrimRight(l) ==> c in l;
    assert forall c :: c in l ==> c in s;
  }

  /** Pieces that are already stripped and non-blank are all kept, unchanged. */
  lemma {:induction false} KeptClean(pieces: seq<string>)
    requires forall k :: 0 <= k < |pieces| ==> ',' !in pieces[k]
    requires forall k :: 0 <= k < |pieces| ==> pieces[k] != "" && Strip(pieces[k]) == pieces[k]
    ensures Kept(pieces) == pieces
  {
    if |pieces| > 0 {
      KeptClean(pieces[1..]);
    }
  }

  /** Joining stripped, non-blank items without commas and parsing the text gives the
      items back. */
  lemma ParseListJoin(items: seq<string>)
    requires |items| > 0
    requires forall k :: 0 <= k < |items| ==> items[k] != "" && Strip(items[k]) == items[k] && ',' !in items[k]
    ensures ParseList(Join(items, ",")) == items
  {
    SplitJoin(items, ',');
    KeptClean(items);
  }

  /** A text without commas is a one-item list unless it is blank. */
  lemma ParseListSingle(value: string)
    requires ',' !in value
    ensures ParseList(value) == if Strip(value) == "" then [] else [Strip(value)]
  {
    SplitNoSep(value, ',');
  }

  /** `parse_bool(value)`: the stripped, lower-cased text is "true", "1" or "yes". */
  predicate ParseBool(value: string)
  {
    Lower(Strip(value)) in ["true", "1", "yes"]
  }

  /** "true", "1" and "yes" are accepted in any letter case. */
  lemma ParseBoolWord(value: string, word: string)
    requires word in ["true", "1", "yes"] && Lower(value) == word
    ensures ParseBool(value)
  {
    assert LowerChar(value[0]) == word[0] && LowerChar(value[|value| - 1]) == word[|word| - 1];
    StripUnpadded(value);
  }

  /** A space in front does not change `parse_bool`. */
  lemma ParseBoolIndent(value: string)
    ensures ParseBool(" " + value) == ParseBool(value)
  {
    assert (" " + value)[1..] == value;
  }

  /** An unset variable, read without a default, is rendered "None" and parses as false. */
  lemma ParseBoolUnset(value: Option<string>)
    requires value.None?
    ensures !ParseBool(PyStr(value))
  {
    var text := PyStr(value);
    StripUnpadded(text);
    assert Lower(text)[0] == 'n';
  }

  /** Upper-casing the text first does not change `parse_bool`. */
  lemma ParseBoolUpper(value: string)
    ensures ParseBool(Upper(value)) == ParseBool(value)
  {
    StripUpper(value);
    LowerUpper(Strip(value));
  }

  lemma {:induction false} TrimLeftUpper(s: string)
    ensures TrimLeft(Upper(s)) == Upper(TrimLeft(s))
    decreases |s|
  {
    if |s| > 0 {
      var u := Upper(s);
      assert u[0] == UpperChar(s[0]);
      if IsSpace(s[0]) {
        assert u[0] == s[0];
        assert u[1..] == Upper(s[1..]);
        TrimLeftUpper(s[1..]);
      } else {
        assert TrimLeft(u) == u;
      }
    }
  }

  lemma {:induction false} TrimRightUpper(s: string)
    ensures TrimRight(Upper(s)) == Upper(TrimRight(s))
    decreases |s|
  {
    if |s| > 0 {
      var u := Upper(s);
      var n := |s| - 1;
      assert u[n] == UpperChar(s[n]);
      if IsSpace(s[n]) {
        assert u[n] == s[n];
        assert u[..n] == Upper(s[..n]);
        TrimRightUpper(s[..n]);
      } else {
        assert TrimRight(u) == u;
      }
    }
  }

  lemma StripUpper(s: string)
    ensures Strip(Upper(s)) == Upper(Strip(s))
  {
    TrimLeftUpper(s);
    TrimRightUpper(TrimLeft(s));
  }

  lemma LowerUpper(s: string)
    ensures Lower(Upper(s)) == Lower(s)
  {
  }

  /** The settings of `settings.py`; `REC_DURATION` is held in nanoseconds. */
  datatype Config = Config(
    sourcePorts: seq<string>, rtpPayloads: seq<string>, enableRecSave: bool, recSaveFp: string,
    recDuration: int, recHz: int, streamLatency: int, netIface: string,
    multicastIps: seq<string>, stationary: bool, device: string)

  /** `os.getenv(name, default)`. */
  function GetEnv(env: map<string, string>, name: string, default: string): string
  {
    if name in env then env[name] else default
  }

  /** `settings.load_settings()`: every variable has a default; `int()` of a text that is not
      a decimal integer raises ValueError. */
  function LoadSettings(env: map<string, string>): (r: Result<Config>)
    ensures r.Err? ==> r.error == ValueError
  {
    var duration := ParseInt(GetEnv(env, "REC_DURATION", "1000"));
    var hz := ParseInt(GetEnv(env, "REC_HZ", "48000"));
    var latency := ParseInt(GetEnv(env, "STREAM_LATENCY", "50"));
    if duration.Err? then Err(duration.error)
    else if hz.Err? then Err(hz.error)
    else if latency.Err? then Err(latency.error)
    else Ok(Config(
      ParseList(GetEnv(env, "SOURCE_PORTS", "5004")),
      ParseList(GetEnv(env, "RTP_PAYLOADS", "98")),
      ParseBool(GetEnv(env, "ENABLE_REC_SAVE", "true")),
      GetEnv(env, "REC_SAVE_FP", "./recs"),
      duration.value * 1000000,
      hz.value,
      latency.value,
      GetEnv(env, "NET_IFACE", "enp2s0"),
      ParseList(GetEnv(env, "MULTICAST_IPS", "192.168.250.255")),
      ParseBool(GetEnv(env, "STATIONARY", "true")),
      GetEnv(env, "DEVICE", "cpu")))
  }

  /** A duration of `ms` milliseconds written in the environment is held as `ms` times 10^6
      nanoseconds; the other integers are read as written. */
  lemma LoadSettingsUnits(env: map<string, string>, ms: int, hz: int, latency: int)
    requires GetEnv(env, "REC_DURATION", "1000") == IntToString(ms)
    requires GetEnv(env, "REC_HZ", "48000") == IntToString(hz)
    requires GetEnv(env, "STREAM_LATENCY", "50") == IntToString(latency)
    ensures LoadSettings(env).Ok?
    ensures LoadSettings(env).value.recDuration == ms * 1000000
    ensures LoadSettings(env).value.recHz == hz && LoadSettings(env).value.streamLatency == latency
  {
    ParseIntOfString(ms);
    ParseIntOfString(hz);
    ParseIntOfString(latency);
  }

  /** An unset variable takes its default: one source port "5004", payload "98", multicast
      address "192.168.250.255", recordings saved to "./recs" on interface "enp2s0". */
  lemma LoadSettingsDefaults(env: map<string, string>)
    requires LoadSettings(env).Ok?
    ensures "SOURCE_PORTS" !in env ==> LoadSettings(env).value.sourcePorts == ["5004"]
    ensures "RTP_PAYLOADS" !in env ==> LoadSettings(env).value.rtpPayloads == ["98"]
    ensures "MULTICAST_IPS" !in env ==> LoadSettings(env).value.multicastIps == ["192.168.250.255"]
    ensures "REC_SAVE_FP" !in env ==> LoadSettings(env).value.recSaveFp == "./recs"
    ensures "NET_IFACE" !in env ==> LoadSettings(env).value.netIface == "enp2s0"
    ensures "DEVICE" !in env ==> LoadSettings(env).value.device == "cpu"
  {
    if "SOURCE_PORTS" !in env { CleanWord(GetEnv(env, "SOURCE_PORTS", "5004")); }
    if "RTP_PAYLOADS" !in env { CleanWord(GetEnv(env, "RTP_PAYLOADS", "98")); }
    if "MULTICAST_IPS" !in env { CleanWord(GetEnv(env, "MULTICAST_IPS", "192.168.250.255")); }
  }

  /** Each default list text is one clean item. */
  lemma CleanWord(s: string)
    requires s in ["5004", "98", "192.168.250.255"]
    ensures ParseList(s) == [s]
  {
    assert !IsSpace(s[0]) && !IsSpace(s[|s| - 1]);
    assert forall i :: 0 <= i < |s| ==> s[i] != ',';
    StripUnpadded(s);
    ParseListSingle(s);
  }

  /** The settings of `src/settings.py`; variables read without a default are None when
      unset. */
  datatype SrcConfig = SrcConfig(
    enableRecSave: bool, recSaveFp: Option<string>, recDuration: int, recHz: int,
    streamLatency: int, netIface: Option<string>, devicesConfigPath: Option<string>,
    stationary: bool, device: Option<string>)

  /** `os.getenv(name)`. */
  function GetEnvOpt(env: map<string, string>, name: string): (r: Option<string>)
    ensures r.Some? <==> name in env
  {
    if name in env then Some(env[name]) else None
  }

  /** `int(value)`: None raises TypeError, text that is not an integer ValueError. */
  function IntOf(value: Option<string>): (r: Result<int>)
    ensures value.None? ==> r == Err(TypeError)
    ensures value.Some? ==> r == ParseInt(value.value)
  {
    if value.None? then Err(TypeError) else ParseInt(value.value)
  }

  /** `src.settings.load_settings()`: the integer settings are read in the order
      REC_DURATION, REC_HZ, STREAM_LATENCY and the first one that fails raises. */
  function LoadSrcSettings(env: map<string, string>): (r: Result<SrcConfig>)
    ensures r.Ok? <==> (IntOf(GetEnvOpt(env, "REC_DURATION")).Ok? && IntOf(GetEnvOpt(env, "REC_HZ")).Ok?
                        && IntOf(GetEnvOpt(env, "STREAM_LATENCY")).Ok?)
    ensures "REC_DURATION" !in env ==> r == Err(TypeError)
  {
    var duration := IntOf(GetEnvOpt(env, "REC_DURATION"));
    var hz := IntOf(GetEnvOpt(env, "REC_HZ"));
    var latency := IntOf(GetEnvOpt(env, "STREAM_LATENCY"));
    if duration.Err? then Err(duration.error)
    else if hz.Err? then Err(hz.error)
    else if latency.Err? then Err(latency.error)
    else Ok(SrcConfig(
      ParseBool(PyStr(GetEnvOpt(env, "ENABLE_REC_SAVE"))),
      GetEnvOpt(env, "REC_SAVE_FP"),
      duration.value * 1000000,
      hz.value,
      latency.value,
      GetEnvOpt(env, "NET_IFACE"),
      GetEnvOpt(env, "DEVICES_CONFIG_PATH"),
      ParseBool(PyStr(GetEnvOpt(env, "STATIONARY"))),
      GetEnvOpt(env, "DEVICE")))
  }

  /** Once the integers load, unset flags are false and unset texts None, and the duration is
      converted from milliseconds to nanoseconds. */
  lemma LoadSrcSettingsUnset(env: map<string, string>, ms: int)
    requires GetEnvOpt(env, "REC_DURATION") == Some(IntToString(ms))
    requires LoadSrcSettings(env).Ok?
    ensures LoadSrcSettings(env).value.recDuration == ms * 1000000
    ensures "ENABLE_REC_SAVE" !in env ==> !LoadSrcSettings(env).value.enableRecSave
    ensures "STATIONARY" !in env ==> !LoadSrcSettings(env).value.stationary
    ensures "REC_SAVE_FP" !in env ==> LoadSrcSettings(env).value.recSaveFp.None?
    ensures "DEVICES_CONFIG_PATH" !in env ==> LoadSrcSettings(env).value.devicesConfigPath.None?
  {
    ParseIntOfString(ms);
    if "ENABLE_REC_SAVE" !in env {
      ParseBoolUnset(GetEnvOpt(env, "ENABLE_REC_SAVE"));
    }
    if "STATIONARY" !in env {
      ParseBoolUnset(GetEnvOpt(env, "STATIONARY"));
    }
  }
}
