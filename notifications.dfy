/**
 * The D-Bus notification bridge (scripts/pino-dbus/src/main.rs): how incoming notifications and
 * media-player state are shaped into the notification that is shown.
 *
 * The bus itself, the proxies and the threads stay outside the model; what a media player reports
 * is passed in as a function of the player's name.
 */
module Notifications {
  import opened Wrappers
  import Text

  /** Rust's `u32`. */
  type U32 = x: int | 0 <= x < 0x1_0000_0000

  /** A hint value: a string, or any other D-Bus value, kept opaque. */
  datatype HintValue = Str(s: string) | Opaque(id: int)

  /** A notification ready to be shown: where it came from, the sending app, texts, actions and hints. */
  datatype NotificationData = NotificationData(source: string, appName: string, summary: string, body: string,
                                               actions: seq<string>, hints: map<string, HintValue>)

  /** What a media player reports. */
  datatype MediaInfo = MediaInfo(player: string, title: Option<string>, artist: Option<string>,
                                 album: Option<string>, status: Option<string>)

  /** The players whose names trigger a rescan, and which the rescan polls, in this order. */
  const MediaPlayers: seq<string> := ["spotify", "mpv", "vlc", "chromium", "firefox", "brave"]

  /** `GetCapabilities`: the four capabilities the server announces, each once. */
  function GetCapabilities(): (caps: seq<string>)
    ensures |caps| == 4 && forall i, j :: 0 <= i < j < |caps| ==> caps[i] != caps[j]
    ensures (set c | c in caps) == {"actions", "body", "body-markup", "icon-static"}
  {
    ["actions", "body", "body-markup", "icon-static"]
  }


  // ---------------------------------------------------------------------------
  // Media notifications
  // ---------------------------------------------------------------------------

  /**
   * `MediaInfo::to_notification`: summary "<player> - <status>", body "<artist> - <title>", or the
   * title alone, or "Now Playing", and an "album" hint when the album is known.
   */
  function ToNotification(m: MediaInfo): (n: NotificationData)
    ensures n.source == "Media" && n.appName == m.player && n.actions == []
    ensures n.summary == m.player + " - " + m.status.UnwrapOr("")
    ensures var title, artist := m.title.UnwrapOr(""), m.artist.UnwrapOr("");
      (title == "" ==> n.body == "Now Playing") &&
      (title != "" && artist == "" ==> n.body == title) &&
      (title != "" && artist != "" ==> n.body == artist + " - " + title)
    ensures n.body != ""
    ensures n.hints.Keys <= {"album"}
    ensures "album" in n.hints <==> m.album.UnwrapOr("") != ""
    ensures "album" in n.hints ==> n.hints["album"] == Str(m.album.value)
  {
    var title := m.title.UnwrapOr("");
    var artist := m.artist.UnwrapOr("");
    var album := m.album.UnwrapOr("");
    var status := m.status.UnwrapOr("");
    var summary := m.player + " - " + status;
    var body :=
      if artist != "" && title != "" then artist + " - " + title
      else if title != "" then title
      else "Now Playing";
    var hints := if album != "" then map["album" := Str(album)] else map[];
    NotificationData("Media", m.player, summary, body, [], hints)
  }

  /** What a player answers when asked: title, artist, album and playback status, each possibly missing. */
  datatype Track = Track(title: Option<string>, artist: Option<string>, album: Option<string>, status: Option<string>)

  /** The notification shown for a player that answered with track `t`. */
  function TrackNotification(player: string, t: Track): NotificationData {
    ToNotification(MediaInfo(player, t.title, t.artist, t.album, t.status))
  }

  /** The notifications one polling round shows: one per player in the list that answers, in list order. */
  function Polled(players: seq<string>, query: string -> Option<Track>): (r: seq<NotificationData>)
    ensures |r| <= |players|
  {
    if players == [] then []
    else
      var last := players[|players| - 1];
      Polled(players[..|players| - 1], query) +
      match query(last)
      case None => []
      case Some(t) => [TrackNotification(last, t)]
  }

  /** `monitor_media_players`: ask every known player in turn and show what each answering one plays. */
  method MonitorMediaPlayers(query: string -> Option<Track>) returns (shown: seq<NotificationData>)
    ensures shown == Polled(MediaPlayers, query)
  {
    shown := [];
    for i := 0 to |MediaPlayers|
      invariant shown == Polled(MediaPlayers[..i], query)
    {
      var player := MediaPlayers[i];
      assert MediaPlayers[..i + 1][..i] == MediaPlayers[..i];
      match query(player)
      case None =>
      case Some(t) =>
        shown := shown + [TrackNotification(player, t)];
    }
    assert MediaPlayers[..|MediaPlayers|] == MediaPlayers;
  }

  /** No two of the notifications come from the same app. */
  predicate OnePerApp(r: seq<NotificationData>) {
    forall i, j :: 0 <= i < j < |r| ==> r[i].appName != r[j].appName
  }

  /** With no player named twice, a polling round shows at most one notification per player. */
  lemma {:induction false} PolledOnePerPlayer(players: seq<string>, query: string -> Option<Track>)
    requires forall i, j :: 0 <= i < j < |players| ==> players[i] != players[j]
    ensures OnePerApp(Polled(players, query))
  {
    if players != [] {
      var init := players[..|players| - 1];
      var last := players[|players| - 1];
      PolledOnePerPlayer(init, query);
      var before := Polled(init, query);
      NoneFromLater(init, last, query);

      var r := Polled(players, query);
      if query(last).Some? {
        var t := query(last).value;
        var n := TrackNotification(last, t);
        assert r == before + [n];
        forall i, j | 0 <= i < j < |r| ensures r[i].appName != r[j].appName {
          assert r[i] == before[i];
          if j < |before| {
            assert r[j] == before[j];
          } else {
            assert r[j] == n && n.appName == last;
          }
        }
      } else {
        assert r == before;
      }
    }
  }

  /** A round over players that exclude `p` shows nothing from `p`, when `p` comes after them all. */
  lemma NoneFromLater(init: seq<string>, p: string, query: string -> Option<Track>)
    requires forall i :: 0 <= i < |init| ==> init[i] != p
    ensures forall i :: 0 <= i < |Polled(init, query)| ==> Polled(init, query)[i].appName != p
  {
    PolledAreMedia(init, query);
    var before := Polled(init, query);
    forall i | 0 <= i < |before| ensures before[i].appName != p {
      assert before[i] in before;
    }
  }

  /** Every player in the list that answers is shown, with the notification of what it reported. */
  lemma {:induction false} PolledShowsAnswered(players: seq<string>, query: string -> Option<Track>, p: string)
    requires p in players && query(p).Some?
    ensures TrackNotification(p, query(p).value) in Polled(players, query)
  {
    var init := players[..|players| - 1];
    var last := players[|players| - 1];
    if p == last {
    } else {
      assert p in init by {
        var k :| 0 <= k < |players| && players[k] == p;
        assert k < |players| - 1 && init[k] == p;
      }
      PolledShowsAnswered(init, query, p);
    }
  }

  /** The six known players are distinct, so a round over them shows at most one notification each. */
  lemma MonitorShowsOnePerPlayer(query: string -> Option<Track>)
    ensures OnePerApp(Polled(MediaPlayers, query))
  {
    PolledOnePerPlayer(MediaPlayers, query);
  }

  /**
   * Every notification a polling round shows is a media notification built from the answer of one
   * of the polled players; a player that does not answer contributes nothing.
   */
  lemma {:induction false} PolledAreMedia(players: seq<string>, query: string -> Option<Track>)
    ensures forall n :: n in Polled(players, query) ==> n.source == "Media" && n.appName in players
    ensures forall n :: n in Polled(players, query) ==>
      exists p :: p in players && query(p).Some? && n == TrackNotification(p, query(p).value)
  {
    if players != [] {
      var init := players[..|players| - 1];
      var last := players[|players| - 1];
      PolledAreMedia(init, query);
      assert forall p :: p in init ==> p in players;
      forall n | n in Polled(players, query)
        ensures exists p :: p in players && query(p).Some? && n == TrackNotification(p, query(p).value)
      {
        if n !in Polled(init, query) {
          assert query(last).Some? && n == TrackNotification(last, query(last).value);
        }
      }
    }
  }

  // ---------------------------------------------------------------------------
  // Incoming notifications
  // ---------------------------------------------------------------------------

  /** `process_discord_notification`: a Discord notification, its summary prefixed, without actions or hints. */
  function DiscordNotification(summary: string, body: string): (n: NotificationData)
    ensures n.source == "Discord" && n.appName == "Discord"
    ensures n.summary == "Discord: " + summary && n.body == body
    ensures n.actions == [] && n.hints == map[]
  {
    NotificationData("Discord", "Discord", "Discord: " + summary, body, [], map[])
  }

  /** The app name mentions a known media player (after lower-casing). */
  predicate IsMediaPlayer(appName: string): (b: bool)
    ensures b ==> exists k, i :: 0 <= k < |MediaPlayers| && Text.OccursAt(Text.Lower(appName), MediaPlayers[k], i)
    ensures (exists k, i :: 0 <= k < |MediaPlayers| && Text.OccursAt(Text.Lower(appName), MediaPlayers[k], i)) ==> b
  {
    var name := Text.Lower(appName);
    Text.ContainsAnySpec(name, MediaPlayers);
    exists k | 0 <= k < |MediaPlayers| :: Text.Contains(name, MediaPlayers[k])
  }

  /** The outcome of one `Notify` call: the notification shown, whether the players are rescanned, the id returned. */
  datatype NotifyReply = NotifyReply(shown: NotificationData, rescan: bool, id: U32)

  /**
   * `Notify`: apps whose lower-cased name contains "discord" get a Discord notification, all
   * others a "System" notification carrying their fields unchanged; the id returned is `replaces_id`.
   */
  function Notify(appName: string, replacesId: U32, appIcon: string, summary: string, body: string,
                  actions: seq<string>, hints: map<string, HintValue>, expireTimeout: int): (r: NotifyReply)
    ensures r.id == replacesId
    ensures r.shown.source == "Discord" <==> Text.Contains(Text.Lower(appName), "discord")
    ensures r.shown.source == "Discord" ==> r.shown == DiscordNotification(summary, body)
    ensures r.shown.source != "Discord" ==>
      r.shown == NotificationData("System", appName, summary, body, actions, hints)
    ensures r.rescan <==> IsMediaPlayer(appName)
  {
    var notification :=
      if Text.Contains(Text.Lower(appName), "discord") then DiscordNotification(summary, body)
      else NotificationData("System", appName, summary, body, actions, hints);
    NotifyReply(notification, IsMediaPlayer(appName), replacesId)
  }

  /** Routing ignores case: an app name and its lower case are routed alike and rescan alike. */
  lemma NotifyIgnoresCase(appName: string, replacesId: U32, appIcon: string, summary: string, body: string,
                          actions: seq<string>, hints: map<string, HintValue>, expireTimeout: int)
    ensures var a := Notify(appName, replacesId, appIcon, summary, body, actions, hints, expireTimeout);
      var b := Notify(Text.Lower(appName), replacesId, appIcon, summary, body, actions, hints, expireTimeout);
      a.shown.source == b.shown.source && a.rescan == b.rescan && a.id == b.id
  {
    Text.LowerIdempotent(appName);
  }

  /** An app name containing "discord" is routed to Discord, whatever else the name holds or its case. */
  lemma {:induction false} DiscordAnywhereInName(prefix: string, suffix: string)
    ensures Notify(prefix + "Discord" + suffix, 0, "", "", "", [], map[], 0).shown.source == "Discord"
  {
    var name := prefix + "Discord" + suffix;
    var lower := Text.Lower(name);
    var i := |prefix|;
    forall j | 0 <= j < 7 ensures lower[i + j] == "discord"[j] {
      assert name[i + j] == "Discord"[j];
      assert lower[i + j] == Text.LowerChar("Discord"[j]);
    }
    assert lower[i..i + 7] == "discord";
    assert Text.OccursAt(lower, "discord", i);
    Text.ContainsSpec(lower, "discord");
  }
}
