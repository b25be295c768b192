/** One client's connection to a room's realtime channel, as the room hook
    keeps it: whether a channel exists, whether the connection is up, the
    clock offset measured when it came up, and the messages published so
    far. Incoming messages are handled by pure functions that decide what
    reaches the page's callbacks. Realtime plumbing, timers and the 2-second
    wait for a channel are inputs. */
module RoomAbly {
  import opened Wrappers
  import opened ClockSync

  datatype PlaybackUpdate = PlaybackUpdate(
    playbackTime: real,
    isPlaying: bool,
    timestamp: real,
    serverTimestamp: Option<real>,
    startTime: Option<real>,
    startServerTime: Option<real>)

  datatype ReactionUpdate = ReactionUpdate(emoji: string, userId: string)

  datatype SkipUpdate = SkipUpdate(streamId: string, votes: seq<string>, threshold: int)

  /** A message published on the channel, by event name. */
  datatype Outgoing =
    | PlaybackOut(playback: PlaybackUpdate)
    | StreamChangeOut(streamId: string)
    | ReactionOut(reaction: ReactionUpdate)
    | SkipOut(skip: SkipUpdate)

  /** `message.timestamp || Date.now()`: the channel's receipt time, unless it
      is absent or 0. */
  function ReceiptTime(messageTimestamp: Option<real>, now: real): (t: real)
    ensures messageTimestamp.Some? && messageTimestamp.value != 0.0 ==> t == messageTimestamp.value
    ensures messageTimestamp.None? || messageTimestamp.value == 0.0 ==> t == now
  {
    if messageTimestamp.Some? && messageTimestamp.value != 0.0 then messageTimestamp.value else now
  }

  /** The `playback:update` handler: the update delivered to the callback, if
      any. The payload's own `serverTimestamp` is replaced by the receipt
      time; a creator is never given playback updates. */
  function OnPlaybackMessage(data: PlaybackUpdate, messageTimestamp: Option<real>, now: real,
                             isCreator: bool, hasCallback: bool): (delivered: Option<PlaybackUpdate>)
    ensures delivered.Some? <==> !isCreator && hasCallback
    ensures delivered.Some? ==>
      && delivered.value.serverTimestamp == Some(ReceiptTime(messageTimestamp, now))
      && delivered.value.playbackTime == data.playbackTime && delivered.value.isPlaying == data.isPlaying
      && delivered.value.timestamp == data.timestamp
      && delivered.value.startTime == data.startTime && delivered.value.startServerTime == data.startServerTime
  {
    var updateData := data.(serverTimestamp := Some(ReceiptTime(messageTimestamp, now)));
    if !isCreator && hasCallback then Some(updateData) else None
  }

  /** Whatever the payload claims, the delivered server timestamp is the
      channel's: two messages that differ only in their payload timestamp are
      delivered alike. */
  lemma PayloadTimestampIsIgnored(data: PlaybackUpdate, claimed: Option<real>, messageTimestamp: Option<real>,
                                  now: real, isCreator: bool, hasCallback: bool)
    ensures OnPlaybackMessage(data.(serverTimestamp := claimed), messageTimestamp, now, isCreator, hasCallback)
         == OnPlaybackMessage(data, messageTimestamp, now, isCreator, hasCallback)
  {
  }

  /** The `stream:change`, `reaction` and `skip:update` handlers: the payload
      is passed on unchanged when a callback is registered. */
  function OnMessage<T>(data: T, hasCallback: bool): (delivered: Option<T>)
    ensures delivered.Some? <==> hasCallback
    ensures delivered.Some? ==> delivered.value == data
  {
    if hasCallback then Some(data) else None
  }

  /** JavaScript truthiness of the room id. */
  predicate HasRoomId(roomId: Option<string>) {
    roomId.Some? && roomId.value != ""
  }

  class RoomConnection {
    const isCreator: bool
    const roomId: Option<string>
    var hasChannel: bool
    var isConnected: bool
    var clockOffset: real
    var published: seq<Outgoing>

    /** Only the creator's connection ever carries playback updates, and each
        one carries a server timestamp. */
    predicate Valid()
      reads this
    {
      forall k :: 0 <= k < |published| && published[k].PlaybackOut? ==>
        isCreator && published[k].playback.serverTimestamp.Some?
    }

    /** The set-up effect: a channel exists once a room id and an API key are
        there; the connection is not yet up and the offset is 0. */
    constructor(roomId: Option<string>, isCreator: bool, hasApiKey: bool)
      ensures Valid()
      ensures this.roomId == roomId && this.isCreator == isCreator
      ensures hasChannel == (HasRoomId(roomId) && hasApiKey)
      ensures !isConnected && clockOffset == 0.0 && published == []
    {
      this.roomId := roomId;
      this.isCreator := isCreator;
      hasChannel := HasRoomId(roomId) && hasApiKey;
      isConnected := false;
      clockOffset := 0.0;
      published := [];
    }

    /** The `connected` event, up to its `await`: the connection is reported
        up at once, while the clock offset keeps its old value until the
        probes finish (see OnClockSynced). Publishes made in between pass
        their connection gate and stamp with the old offset. */
    method OnConnected()
      requires Valid()
      modifies this
      ensures Valid()
      ensures isConnected
      ensures hasChannel == old(hasChannel) && clockOffset == old(clockOffset) && published == old(published)
    {
      isConnected := true;
    }

    /** The rest of the `connected` handler, once `syncClockToServer` returns:
        the offset is measured again from the probes made, their client
        readings taken on the page clock that starts at `timeOrigin` and moved
        onto the epoch clock. */
    method OnClockSynced(raw: seq<Option<Probe>>, timeOrigin: real)
      requires Valid()
      requires |raw| == SAMPLE_COUNT
      modifies this
      ensures Valid()
      ensures clockOffset == Median(SamplesOf(EpochProbes(raw, timeOrigin)))
      ensures timeOrigin == 0.0 ==> clockOffset == Median(SamplesOf(raw))
      ensures hasChannel == old(hasChannel) && isConnected == old(isConnected) && published == old(published)
    {
      EpochProbesWithoutOrigin(raw);
      var offset := SyncClockToServer(EpochProbes(raw, timeOrigin));
      clockOffset := offset;
    }

    /** The `disconnected` and `failed` events. */
    method OnDisconnected()
      requires Valid()
      modifies this
      ensures Valid()
      ensures !isConnected
      ensures hasChannel == old(hasChannel) && clockOffset == old(clockOffset) && published == old(published)
    {
      isConnected := false;
    }

    /** The clean-up of the effect: the channel is released. */
    method Close()
      requires Valid()
      modifies this
      ensures Valid()
      ensures !hasChannel
      ensures isConnected == old(isConnected) && clockOffset == old(clockOffset) && published == old(published)
    {
      hasChannel := false;
    }

    /** `publishPlaybackUpdate`: only the creator publishes. Without a channel
        but with a room id it waits for one; `channelAfterWait` says whether
        one appeared within the wait. The connection state is not consulted.
        The update is stamped with `now` plus the stored offset; `clientNow`
        is the local high-resolution clock. */
    method PublishPlaybackUpdate(playbackTime: real, isPlaying: bool, startTime: Option<real>,
                                 startServerTime: Option<real>, channelAfterWait: bool,
                                 now: real, clientNow: real)
      requires Valid()
      modifies this
      ensures Valid()
      ensures isConnected == old(isConnected) && clockOffset == old(clockOffset)
      ensures var sent := old(hasChannel) || (HasRoomId(roomId) && channelAfterWait);
        if isCreator && sent then
          && hasChannel
          && published == old(published) + [PlaybackOut(PlaybackUpdate(playbackTime, isPlaying, clientNow,
                                                         Some(now + old(clockOffset)), startTime, startServerTime))]
        else
          published == old(published) && hasChannel == old(hasChannel)
    {
      if !isCreator {
        return;
      }
      if !hasChannel && HasRoomId(roomId) {
        if channelAfterWait {
          hasChannel := true;
        }
        if !hasChannel {
          return;
        }
      } else if !hasChannel {
        return;
      }
      var serverTime := now + clockOffset;
      var data := PlaybackUpdate(playbackTime, isPlaying, clientNow, Some(serverTime), startTime, startServerTime);
      published := published + [PlaybackOut(data)];
    }

    /** `publishStreamChange`, `publishReaction` and `publishSkipUpdate`: each
        publishes only with a channel and a live connection. */
    method PublishStreamChange(streamId: string)
      requires Valid()
      modifies this
      ensures Valid()
      ensures hasChannel == old(hasChannel) && isConnected == old(isConnected) && clockOffset == old(clockOffset)
      ensures published == if hasChannel && isConnected then old(published) + [StreamChangeOut(streamId)] else old(published)
    {
      if !hasChannel || !isConnected {
        return;
      }
      published := published + [StreamChangeOut(streamId)];
    }

    method PublishReaction(emoji: string, userId: string)
      requires Valid()
      modifies this
      ensures Valid()
      ensures hasChannel == old(hasChannel) && isConnected == old(isConnected) && clockOffset == old(clockOffset)
      ensures published == if hasChannel && isConnected then old(published) + [ReactionOut(ReactionUpdate(emoji, userId))] else old(published)
    {
      if !hasChannel || !isConnected {
        return;
      }
      published := published + [ReactionOut(ReactionUpdate(emoji, userId))];
    }

    method PublishSkipUpdate(data: SkipUpdate)
      requires Valid()
      modifies this
      ensures Valid()
      ensures hasChannel == old(hasChannel) && isConnected == old(isConnected) && clockOffset == old(clockOffset)
      ensures published == if hasChannel && isConnected then old(published) + [SkipOut(data)] else old(published)
    {
      if !hasChannel || !isConnected {
        return;
      }
      published := published + [SkipOut(data)];
    }
  }

  /** A member's connection publishes no playback update, whatever it is asked to do. */
  lemma MemberPublishesNoPlayback(c: RoomConnection, k: int)
    requires c.Valid() && !c.isCreator && 0 <= k < |c.published|
    ensures !c.published[k].PlaybackOut?
  {
  }
}
