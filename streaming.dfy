/** The live-stream settings screen: the operator picks where the website's
    "Live" section streams from (YouTube, Twitch, a direct link or custom
    embed code) and the channel, link or code to use; the choice is kept in
    the `stream_config` entry of `app_settings`. */
module Streaming {
  import opened JsValues
  import opened Supabase

  /** The four source buttons. */
  datatype Platform = YouTube | Twitch | Link | Custom

  /** The value each button stores in `streamPlatform`. */
  function PlatformName(p: Platform): (name: string)
    ensures name in ["youtube", "twitch", "url", "custom"]
    ensures p == YouTube <==> name == "youtube"
    ensures p == Twitch <==> name == "twitch"
    ensures p == Link <==> name == "url"
    ensures p == Custom <==> name == "custom"
  {
    match p
    case YouTube => "youtube"
    case Twitch => "twitch"
    case Link => "url"
    case Custom => "custom"
  }

  lemma PlatformNameInjective(p: Platform, q: Platform)
    requires PlatformName(p) == PlatformName(q)
    ensures p == q
  {
  }

  /** A platform value one of the four buttons produces. */
  predicate KnownPlatform(v: Value) {
    v == Str("youtube") || v == Str("twitch") || v == Str("url") || v == Str("custom")
  }

  /** The text field's label for the current platform; any value that is not
      one of the first three gets the embed-code label. */
  function InputLabel(platform: Value): (text: string)
    ensures platform == Str("youtube") ==> text == "Link de YouTube"
    ensures platform == Str("twitch") ==> text == "Canal de Twitch"
    ensures platform == Str("url") ==> text == "URL de Transmisi\U{00F3}n (m3u8/mp4)"
    ensures platform != Str("youtube") && platform != Str("twitch") && platform != Str("url")
      ==> text == "C\U{00F3}digo Iframe"
  {
    if platform == Str("youtube") then "Link de YouTube"
    else if platform == Str("twitch") then "Canal de Twitch"
    else if platform == Str("url") then "URL de Transmisi\U{00F3}n (m3u8/mp4)"
    else "C\U{00F3}digo Iframe"
  }

  /** The hint under the text field, chosen the same way. */
  function HelperText(platform: Value): (text: string)
    ensures platform == Str("youtube") ==> text == "Ej: https://youtube.com/watch?v=..."
    ensures platform == Str("twitch") ==> text == "Ej: ibai"
    ensures platform == Str("url") ==> text == "Ej: https://mi-servidor.com/stream.m3u8 (OBS)"
    ensures platform != Str("youtube") && platform != Str("twitch") && platform != Str("url")
      ==> text == "Pega el c\U{00F3}digo <iframe src='...'></iframe> completo."
  {
    if platform == Str("youtube") then "Ej: https://youtube.com/watch?v=..."
    else if platform == Str("twitch") then "Ej: ibai"
    else if platform == Str("url") then "Ej: https://mi-servidor.com/stream.m3u8 (OBS)"
    else "Pega el c\U{00F3}digo <iframe src='...'></iframe> completo."
  }

  /** Each of the four platforms gets its own label. */
  lemma LabelsDistinct(p: Platform, q: Platform)
    requires p != q
    ensures InputLabel(Str(PlatformName(p))) != InputLabel(Str(PlatformName(q)))
  {
  }

  /** Each of the four platforms gets its own hint. */
  lemma HintsDistinct(p: Platform, q: Platform)
    requires p != q
    ensures HelperText(Str(PlatformName(p))) != HelperText(Str(PlatformName(q)))
  {
  }

  /** Whether the text field takes several lines: for a link or embed code
      only. */
  function Multiline(platform: Value): (wraps: bool)
    ensures wraps <==> platform == Str("custom") || platform == Str("url")
  {
    platform == Str("custom") || platform == Str("url")
  }

  /** How many lines the text field shows: four for embed code, one for
      anything else. */
  function NumberOfLines(platform: Value): (lines: nat)
    ensures lines == 4 <==> platform == Str("custom")
    ensures lines != 4 ==> lines == 1
  {
    if platform == Str("custom") then 4 else 1
  }

  /** Only a wrapping field is ever taller than one line. */
  lemma TallFieldIsMultiline(platform: Value)
    ensures NumberOfLines(platform) > 1 ==> Multiline(platform)
    ensures !Multiline(platform) ==> NumberOfLines(platform) == 1
  {
  }

  /** The platform and channel the screen holds. */
  datatype StreamConfig = StreamConfig(platform: Value, channelId: Value)

  /** The query `fetchConfig` issues. */
  const ConfigQuery: Call :=
    Call("app_settings", [Select("value", Undefined), Eq("key", Str("stream_config")), Single])

  /** The stored setting as an object: a string goes through `JSON.parse`,
      which is `parse` here (None when it throws); anything else is taken as
      it is. */
  function LoadConfig(stored: Value, parse: string -> Option<Value>): (config: Option<Value>)
    ensures stored.Str? ==> config == parse(stored.s)
    ensures !stored.Str? ==> config == Some(stored)
  {
    if stored.Str? then parse(stored.s) else Some(stored)
  }

  /** What `fetchConfig` leaves behind. The error the query reports is not
      looked at; a rejected query, an unparsable string or a config of null
      throw out of the handler, which leaves the screen as it was. */
  function ConfigAfter(cur: StreamConfig, answer: Settled, parse: string -> Option<Value>): (r: StreamConfig)
    ensures answer.Thrown? ==> r == cur
    ensures answer.Resolved? && !Truthy(OptMember(answer.reply.data, "value")) ==> r == cur
    ensures r != cur ==> Truthy(r.platform) && (Truthy(r.channelId) || r.channelId == Str(""))
    ensures answer.Resolved? && Truthy(OptMember(answer.reply.data, "value")) ==>
      var config := LoadConfig(OptMember(answer.reply.data, "value"), parse);
      && (config.None? || config.value == Null || config.value == Undefined ==> r == cur)
      && (config.Some? && !config.value.Obj? && config.value != Null && config.value != Undefined ==>
            r == StreamConfig(Str("youtube"), Str("")))
    ensures answer.Resolved? && Truthy(OptMember(answer.reply.data, "value")) ==>
      var config := LoadConfig(OptMember(answer.reply.data, "value"), parse);
      config.Some? && config.value.Obj? ==>
        var fields := config.value.fields;
        && ("platform" !in fields || !Truthy(fields["platform"]) ==> r.platform == Str("youtube"))
        && ("platform" in fields && Truthy(fields["platform"]) ==> r.platform == fields["platform"])
        && ("channelId" !in fields || !Truthy(fields["channelId"]) ==> r.channelId == Str(""))
        && ("channelId" in fields && Truthy(fields["channelId"]) ==> r.channelId == fields["channelId"])
  {
    if answer.Thrown? then cur
    else
      var stored := OptMember(answer.reply.data, "value");
      if !Truthy(stored) then cur
      else
        match LoadConfig(stored, parse)
        case None => cur
        case Some(config) =>
          match Member(config, "platform")
          case None => cur
          case Some(p) =>
            OrTruthy(p, Str("youtube"));
            StreamConfig(Or(p, Str("youtube")), Or(OptMember(config, "channelId"), Str("")))
  }

  /** The stored setting `saveConfig` writes for a platform and channel. */
  function StoredValue(c: StreamConfig): Value {
    Obj(map["platform" := c.platform, "channelId" := c.channelId])
  }

  /** The upsert `saveConfig` issues. */
  function SaveCall(c: StreamConfig): (call: Call)
    ensures call.table == "app_settings" && |call.ops| == 1 && call.ops[0].Upsert?
    ensures call.ops[0].row == Obj(map["key" := Str("stream_config"), "value" := StoredValue(c)])
  {
    Call("app_settings", [Upsert(Obj(map["key" := Str("stream_config"), "value" := StoredValue(c)]))])
  }

  /** A configuration the screen can hold: a truthy platform, and a channel
      that is truthy or the empty string. A loaded channel is kept as it was
      stored, so it need not be text (a stored number stays a number). */
  predicate Storable(c: StreamConfig) {
    Truthy(c.platform) && (Truthy(c.channelId) || c.channelId == Str(""))
  }

  /** Loading never breaks a storable configuration. */
  lemma LoadKeepsStorable(cur: StreamConfig, answer: Settled, parse: string -> Option<Value>)
    requires Storable(cur)
    ensures Storable(ConfigAfter(cur, answer, parse))
  {
  }

  /** What an upsert issued by `saveConfig` stores under `value` is what the
      load reads back: selecting that value restores the saved config. */
  lemma SavedRowLoadsBack(c: StreamConfig, cur: StreamConfig, error: Value, count: Value, parse: string -> Option<Value>)
    requires Storable(c)
    ensures ConfigAfter(cur, Resolved(Reply(Obj(map["value" := SaveCall(c).ops[0].row.fields["value"]]), error, count)), parse) == c
  {
    assert SaveCall(c).ops[0].row.fields["value"] == StoredValue(c);
    SaveLoadRoundTrip(c, cur, error, count, parse);
  }

  /** Save then load: reading back the value that was written restores the
      same platform and channel, whatever the screen held in between and
      whatever error the read reports. */
  lemma SaveLoadRoundTrip(c: StreamConfig, cur: StreamConfig, error: Value, count: Value, parse: string -> Option<Value>)
    requires Storable(c)
    ensures ConfigAfter(cur, Resolved(Reply(Obj(map["value" := StoredValue(c)]), error, count)), parse) == c
  {
    var answer := Resolved(Reply(Obj(map["value" := StoredValue(c)]), error, count));
    assert OptMember(answer.reply.data, "value") == StoredValue(c);
  }

  /** The same round trip when the setting was stored as JSON text that
      parses back to the written object. */
  lemma SaveLoadRoundTripText(c: StreamConfig, cur: StreamConfig, text: string, error: Value, count: Value, parse: string -> Option<Value>)
    requires Storable(c) && text != "" && parse(text) == Some(StoredValue(c))
    ensures ConfigAfter(cur, Resolved(Reply(Obj(map["value" := Str(text)]), error, count)), parse) == c
  {
    var answer := Resolved(Reply(Obj(map["value" := Str(text)]), error, count));
    assert OptMember(answer.reply.data, "value") == Str(text);
  }

  /** Loading never leaves an unknown platform behind when the loaded
      config (an object, or text that parses to one) holds no truthy
      platform or one of the four. */
  lemma LoadKeepsKnownPlatform(cur: StreamConfig, answer: Settled, parse: string -> Option<Value>)
    requires KnownPlatform(cur.platform)
    requires answer.Resolved?
    requires var config := LoadConfig(OptMember(answer.reply.data, "value"), parse);
      config.Some? && config.value.Obj? ==>
        var fields := config.value.fields;
        "platform" in fields && Truthy(fields["platform"]) ==> KnownPlatform(fields["platform"])
    ensures KnownPlatform(ConfigAfter(cur, answer, parse).platform)
  {
  }

  /** On the mock, `single` answers with the master access code as the
      value, a string that is not JSON: parsing it throws and the screen
      keeps its defaults. */
  lemma MockConfigUnchanged(loadedAt: int, cur: StreamConfig, parse: string -> Option<Value>)
    requires parse(MasterCode) == None
    ensures ConfigAfter(cur, MockAwait(loadedAt, ConfigQuery), parse) == cur
  {
    var filters := [Select("value", Undefined), Eq("key", Str("stream_config"))];
    assert ConfigQuery.ops == filters + [Single];
    MockSingle(loadedAt, "app_settings", filters);
    var answer := MockAwait(loadedAt, ConfigQuery);
    assert OptMember(answer.reply.data, "value") == Str(MasterCode);
  }

  /** On the mock, saving always reports success. */
  lemma MockSaveSucceeds(loadedAt: int, c: StreamConfig)
    ensures !Fails(MockAwait(loadedAt, SaveCall(c)))
  {
    MockUpsert(loadedAt, "app_settings", SaveCall(c).ops[0].row);
  }

  /** The alert a failed save shows. */
  const SaveErrorText: string := "Error al guardar configuraci\U{00F3}n"

  class StreamingScreen {
    var streamPlatform: Value
    var channelId: Value
    var loading: bool
    /** Whether the success toast is showing. */
    var visible: bool

    /** The screen holds a configuration that a save can write and a load
        restores. */
    predicate Valid()
      reads this
    {
      Storable(StreamConfig(streamPlatform, channelId))
    }

    constructor ()
      ensures streamPlatform == Str("youtube") && channelId == Str("") && !loading && !visible
      ensures Valid()
    {
      streamPlatform, channelId, loading, visible := Str("youtube"), Str(""), false, false;
    }

    /** `fetchConfig` against `backend`, with `parse` standing for `JSON.parse`. */
    method FetchConfig(backend: Backend, parse: string -> Option<Value>) returns (query: Call)
      requires Valid()
      modifies this`streamPlatform, this`channelId
      ensures Valid()
      ensures query == ConfigQuery
      ensures StreamConfig(streamPlatform, channelId) ==
        ConfigAfter(StreamConfig(old(streamPlatform), old(channelId)), backend(query), parse)
    {
      query := ConfigQuery;
      var answer := backend(query);
      if answer.Resolved? {
        var stored := OptMember(answer.reply.data, "value");
        if Truthy(stored) {
          var config := LoadConfig(stored, parse);
          if config.Some? {
            var p := Member(config.value, "platform");
            if p.Some? {
              streamPlatform := Or(p.value, Str("youtube"));
              channelId := Or(OptMember(config.value, "channelId"), Str(""));
            }
          }
        }
      }
    }

    /** `saveConfig`: the upsert it issues, and the alert it shows when the
        write fails. The toast shows only on success; `loading` ends false. */
    method SaveConfig(backend: Backend) returns (call: Call, alert: Option<string>)
      requires Valid()
      modifies this`loading, this`visible
      ensures Valid()
      ensures call == SaveCall(StreamConfig(streamPlatform, channelId)) && !loading
      ensures forall cur, error, count, parse ::
        ConfigAfter(cur, Resolved(Reply(Obj(map["value" := call.ops[0].row.fields["value"]]), error, count)), parse)
          == StreamConfig(streamPlatform, channelId)
      ensures Fails(backend(call)) ==> alert == Some(SaveErrorText) && visible == old(visible)
      ensures !Fails(backend(call)) ==> alert == None && visible
    {
      loading := true;
      call := SaveCall(StreamConfig(streamPlatform, channelId));
      var answer := backend(call);
      if Fails(answer) {
        alert := Some(SaveErrorText);
      } else {
        alert := None;
        visible := true;
      }
      loading := false;
      forall cur, error, count, parse
        ensures ConfigAfter(cur, Resolved(Reply(Obj(map["value" := call.ops[0].row.fields["value"]]), error, count)), parse)
          == StreamConfig(streamPlatform, channelId)
      {
        SavedRowLoadsBack(StreamConfig(streamPlatform, channelId), cur, error, count, parse);
      }
    }

    /** Pressing one of the four source buttons. */
    method SelectPlatform(p: Platform)
      modifies this`streamPlatform
      requires Valid()
      ensures streamPlatform == Str(PlatformName(p)) && KnownPlatform(streamPlatform)
      ensures Valid()
    {
      streamPlatform := Str(PlatformName(p));
    }

    /** Typing in the text field. */
    method SetChannelId(text: string)
      modifies this`channelId
      requires Valid()
      ensures channelId == Str(text)
      ensures Valid()
    {
      channelId := Str(text);
    }

    /** The toast's dismissal. */
    method DismissToast()
      requires Valid()
      modifies this`visible
      ensures !visible && Valid()
    {
      visible := false;
    }
  }
}
