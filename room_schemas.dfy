/** The request-body schemas of the room routes, as parsers from a decoded
    JSON object to the typed input. Keys a schema does not name are dropped,
    an `optional` field accepts only an absent key, and `default` fills an
    absent key. Whether a string is a URL is decided by a parser outside the
    model, so it is a parameter here. */
module RoomSchemas {
  import opened Wrappers

  /** A decoded JSON value, down to the kinds the schemas tell apart. */
  datatype Json = JString(s: string) | JNumber(n: real) | JBool(b: bool) | JNull | JArray | JObject

  /** A decoded JSON object. */
  type Body = map<string, Json>

  predicate IsString(body: Body, key: string) {
    key in body && body[key].JString?
  }

  /** `z.string().optional()` with a length bound: absent, or a string no longer than `max`. */
  predicate OptionalStringAtMost(body: Body, key: string, max: nat) {
    key !in body || (body[key].JString? && |body[key].s| <= max)
  }

  function OptionalString(body: Body, key: string): Option<string> {
    if key in body && body[key].JString? then Some(body[key].s) else None
  }

  datatype CreateRoomInput = CreateRoomInput(name: string, description: Option<string>, isPublic: bool)

  const NAME_MAX: nat := 100
  const DESCRIPTION_MAX: nat := 500

  /** `CreateRoomSchema`: a name of 1 to 100 characters, an optional
      description of at most 500, and `isPublic`, true when absent. */
  function ParseCreateRoom(body: Body): (r: Option<CreateRoomInput>)
    ensures r.Some? <==>
      && IsString(body, "name") && 1 <= |body["name"].s| <= NAME_MAX
      && OptionalStringAtMost(body, "description", DESCRIPTION_MAX)
      && ("isPublic" !in body || body["isPublic"].JBool?)
    ensures r.Some? ==>
      && r.value.name == body["name"].s
      && r.value.description == OptionalString(body, "description")
      && r.value.isPublic == ("isPublic" !in body || body["isPublic"].b)
  {
    if !IsString(body, "name") || !(1 <= |body["name"].s| <= NAME_MAX) then None
    else if !OptionalStringAtMost(body, "description", DESCRIPTION_MAX) then None
    else if "isPublic" in body && !body["isPublic"].JBool? then None
    else
      var isPublic := if "isPublic" in body then body["isPublic"].b else true;
      Some(CreateRoomInput(body["name"].s, OptionalString(body, "description"), isPublic))
  }

  /** The JSON object a client sends for a room, with `isPublic` always given. */
  function EncodeCreateRoom(input: CreateRoomInput): Body {
    var base := map["name" := JString(input.name), "isPublic" := JBool(input.isPublic)];
    if input.description.Some? then base["description" := JString(input.description.value)] else base
  }

  /** Every input within the bounds survives encoding and parsing unchanged,
      and one outside them is refused. */
  lemma CreateRoomRoundTrip(input: CreateRoomInput)
    ensures ParseCreateRoom(EncodeCreateRoom(input)).Some? <==>
      1 <= |input.name| <= NAME_MAX &&
      (input.description.Some? ==> |input.description.value| <= DESCRIPTION_MAX)
    ensures ParseCreateRoom(EncodeCreateRoom(input)).Some? ==>
      ParseCreateRoom(EncodeCreateRoom(input)) == Some(input)
  {
  }

  /** Leaving `isPublic` out makes a public room. */
  lemma CreateRoomDefaultsToPublic(name: string)
    requires 1 <= |name| <= NAME_MAX
    ensures ParseCreateRoom(map["name" := JString(name)]) == Some(CreateRoomInput(name, None, true))
  {
  }

  datatype AddStreamInput = AddStreamInput(streamId: Option<string>, url: Option<string>)

  /** A JavaScript-truthy optional string: present and not empty. */
  predicate Provided(value: Option<string>) {
    value.Some? && value.value != ""
  }

  /** `AddStreamSchema`: an optional string `streamId` and an optional URL
      `url`, at least one of them present and non-empty. */
  function ParseAddStream(body: Body, isUrl: string -> bool): (r: Option<AddStreamInput>)
    ensures r.Some? <==>
      && ("streamId" !in body || body["streamId"].JString?)
      && ("url" !in body || (body["url"].JString? && isUrl(body["url"].s)))
      && (Provided(OptionalString(body, "streamId")) || Provided(OptionalString(body, "url")))
    ensures r.Some? ==> r.value == AddStreamInput(OptionalString(body, "streamId"), OptionalString(body, "url"))
  {
    if "streamId" in body && !body["streamId"].JString? then None
    else if "url" in body && !(body["url"].JString? && isUrl(body["url"].s)) then None
    else
      var data := AddStreamInput(OptionalString(body, "streamId"), OptionalString(body, "url"));
      if Provided(data.streamId) || Provided(data.url) then Some(data) else None
  }

  /** Neither a stream id nor a URL, or only empty ones: refused. */
  lemma AddStreamNeedsIdOrUrl(body: Body, isUrl: string -> bool)
    requires "streamId" !in body || body["streamId"] == JString("")
    requires "url" !in body || body["url"] == JString("")
    ensures ParseAddStream(body, isUrl) == None
  {
  }

  datatype PlaybackUpdateInput = PlaybackUpdateInput(playbackTime: real, isPlaying: bool)

  /** `PlaybackUpdateSchema`: a number `playbackTime` and a boolean `isPlaying`, both required. */
  function ParsePlaybackUpdate(body: Body): (r: Option<PlaybackUpdateInput>)
    ensures r.Some? <==>
      "playbackTime" in body && body["playbackTime"].JNumber? &&
      "isPlaying" in body && body["isPlaying"].JBool?
    ensures r.Some? ==> r.value.playbackTime == body["playbackTime"].n && r.value.isPlaying == body["isPlaying"].b
  {
    if "playbackTime" in body && body["playbackTime"].JNumber? && "isPlaying" in body && body["isPlaying"].JBool? then
      Some(PlaybackUpdateInput(body["playbackTime"].n, body["isPlaying"].b))
    else None
  }

  lemma PlaybackUpdateRoundTrip(input: PlaybackUpdateInput, extra: Body)
    ensures ParsePlaybackUpdate(extra["playbackTime" := JNumber(input.playbackTime)]["isPlaying" := JBool(input.isPlaying)])
         == Some(input)
  {
  }
}
