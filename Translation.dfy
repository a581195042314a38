/**
 * The packet-to-line translation engine of the Bedrock chat logger: the five
 * `text` packet handlers (chat, announcements, connections, player actions,
 * deaths), the death-reason table, and an independent classifier that shows
 * the five handlers, run one after another on every packet, log at most one line.
 */
module Translation {
  import opened Wrappers

  /** A `text` packet as delivered by the protocol client. */
  datatype Packet = Packet(kind: string, sourceName: string, message: string, parameters: seq<string>)

  const CHAT_TYPE := "chat"
  const ANNOUNCEMENT_TYPE := "announcement"
  const TRANSLATION_TYPE := "translation"

  const PLAYER_LEFT_KEY := "§e%multiplayer.player.left"
  const PLAYER_JOINED_KEY := "§e%multiplayer.player.joined"
  const SKIPPING_NIGHT_KEY := "multiplayer.playersSkippingNight"
  const DEATH_PREFIX := "death."

  const SKIPPING_NIGHT_LINE := "* Players are skipping the night."

  predicate StartsWith(s: string, prefix: string) {
    |prefix| <= |s| && s[..|prefix|] == prefix
  }

  /** How a template literal renders `parameters[i]`: an index past the end reads `undefined`. */
  function ParameterText(ps: seq<string>, i: nat): string {
    if i < |ps| then ps[i] else "undefined"
  }

  // ---------------------------------------------------------------------------
  // Line renderings
  // ---------------------------------------------------------------------------

  function ChatLine(p: Packet): string {
    "[" + p.sourceName + "] " + p.message
  }

  function LeftLine(player: string): string {
    "* [" + player + "] left the game."
  }

  function JoinedLine(player: string): string {
    "* [" + player + "] joined the game."
  }

  /** The player name of a death message; a missing one is JavaScript's `null`. */
  function DeathPlayer(ps: seq<string>): string {
    if |ps| > 0 then ps[0] else "null"
  }

  /** The " caused by [...]" suffix, present exactly when a second parameter is. */
  function DeathSuffix(ps: seq<string>): string {
    if |ps| > 1 then " caused by [" + ps[1] + "]" else ""
  }

  // ---------------------------------------------------------------------------
  // The death-reason table
  // ---------------------------------------------------------------------------

  /** The death keys and their phrases, in the order the source tests them. */
  const DEATH_PHRASES: seq<(string, string)> := [
    ("death.fell.accident.generic", "fell to their death"),
    ("death.attack.mob", "was killed"),
    ("death.attack.fall", "fell to their death while trying to escape"),
    ("death.attack.player", "was killed by player"),
    ("death.attack.inFire", "burned to death"),
    ("death.attack.wither", "withered away"),
    ("death.attack.starve", "starved to death"),
    ("death.attack.stalagmite", "was impaled by a stalagmite"),
    ("death.attack.magic", "was killed by magic"),
    ("death.attack.explosion", "was blown up by an explosion"),
    ("death.attack.cactus", "was pricked to death"),
    ("death.attack.lightningBolt", "was struck by lightning"),
    ("death.attack.dragonBreath", "was killed by dragon breath"),
    ("death.attack.drown", "drowned"),
    ("death.attack.dryout", "dried out"),
    ("death.attack.anvil", "was squashed by a falling anvil"),
    ("death.attack.fallingBlock", "was squashed by a falling block"),
    ("death.attack.fallingStalactite", "was impaled by a falling stalactite"),
    ("death.attack.flyIntoWall", "flew into a wall"),
    ("death.attack.freeze", "froze to death"),
    ("death.attack.fireball", "was fireballed to death"),
    ("death.attack.thorns", "was killed by thorns"),
    ("death.attack.cramming", "was squished too much"),
    ("death.attack.trident", "was impaled by a trident"),
    ("death.attack.potion", "was killed by magic"),
    ("death.attack.witherSkull", "was killed by a wither skull"),
    ("death.attack.lava", "was burnt to a crisp whilst fighting")
  ]

  /**
   * The source's chain of `if (message === key) deathReason = phrase`, one
   * test per table entry in order: a later match overwrites an earlier one.
   */
  function ReassignChain(table: seq<(string, string)>, key: string, reason: string): string
    decreases |table|
  {
    if table == [] then reason
    else ReassignChain(table[1..], key, if key == table[0].0 then table[0].1 else reason)
  }

  /** A table with distinct keys read as a map from key to phrase. */
  function TableMap(table: seq<(string, string)>): map<string, string>
    requires DistinctKeys(table)
  {
    map i | 0 <= i < |table| :: table[i].0 := table[i].1
  }

  /** The death table as a map from death key to phrase. */
  const DEATH_REASONS: map<string, string> := (DeathKeysDistinct(); TableMap(DEATH_PHRASES))

  /** The death reason: the key's phrase when the table lists it, otherwise the raw key. */
  function DeathReason(key: string): string {
    if key in DEATH_REASONS then DEATH_REASONS[key] else key
  }

  predicate DistinctKeys(table: seq<(string, string)>) {
    forall i, j :: 0 <= i < j < |table| ==> table[i].0 != table[j].0
  }

  predicate Listed(table: seq<(string, string)>, key: string) {
    exists i :: 0 <= i < |table| && table[i].0 == key
  }

  /** The line of a death with the given reason: "* [player] reason<suffix>." */
  function DeathLine(ps: seq<string>, reason: string): string {
    "* [" + DeathPlayer(ps) + "] " + reason + DeathSuffix(ps) + "."
  }

  // ---------------------------------------------------------------------------
  // The five handlers, each giving the lines it logs
  // ---------------------------------------------------------------------------

  function ProcessChat(p: Packet): seq<string> {
    if p.kind == CHAT_TYPE then [ChatLine(p)] else []
  }

  function ProcessAnnouncements(p: Packet): seq<string> {
    if p.kind == ANNOUNCEMENT_TYPE then [p.message] else []
  }

  /** Two independent tests, as in the source: the leave key, then the join key. */
  function ProcessConnections(p: Packet): seq<string> {
    if p.kind != TRANSLATION_TYPE then []
    else
      (if p.message == PLAYER_LEFT_KEY then [LeftLine(ParameterText(p.parameters, 0))] else [])
      + (if p.message == PLAYER_JOINED_KEY then [JoinedLine(ParameterText(p.parameters, 0))] else [])
  }

  function ProcessPlayerActions(p: Packet): seq<string> {
    if p.kind != TRANSLATION_TYPE then []
    else if p.message == SKIPPING_NIGHT_KEY then [SKIPPING_NIGHT_LINE]
    else []
  }

  function ProcessDeaths(p: Packet): seq<string> {
    if p.kind != TRANSLATION_TYPE then []
    else if StartsWith(p.message, DEATH_PREFIX) then [DeathLine(p.parameters, DeathReason(p.message))]
    else []
  }

  /** Everything the `text` handler logs for one packet: the five handlers in order. */
  function Lines(p: Packet): seq<string> {
    ProcessChat(p) + ProcessAnnouncements(p) + ProcessConnections(p)
    + ProcessPlayerActions(p) + ProcessDeaths(p)
  }

  // ---------------------------------------------------------------------------
  // The reference classifier
  // ---------------------------------------------------------------------------

  /** The families a text packet can fall into. */
  datatype Event = Chat | Announcement | PlayerLeft | PlayerJoined | SkippingNight | Death | Ignored

  function Classify(p: Packet): Event {
    if p.kind == CHAT_TYPE then Chat
    else if p.kind == ANNOUNCEMENT_TYPE then Announcement
    else if p.kind != TRANSLATION_TYPE then Ignored
    else if p.message == PLAYER_LEFT_KEY then PlayerLeft
    else if p.message == PLAYER_JOINED_KEY then PlayerJoined
    else if p.message == SKIPPING_NIGHT_KEY then SkippingNight
    else if StartsWith(p.message, DEATH_PREFIX) then Death
    else Ignored
  }

  /** The one line, if any, a packet produces. */
  function Translate(p: Packet): (r: Option<string>)
    ensures r.None? <==> Classify(p) == Ignored
  {
    match Classify(p)
    case Chat => Some(ChatLine(p))
    case Announcement => Some(p.message)
    case PlayerLeft => Some(LeftLine(ParameterText(p.parameters, 0)))
    case PlayerJoined => Some(JoinedLine(ParameterText(p.parameters, 0)))
    case SkippingNight => Some(SKIPPING_NIGHT_LINE)
    case Death => Some(DeathLine(p.parameters, DeathReason(p.message)))
    case Ignored => None
  }

  // ---------------------------------------------------------------------------
  // Lemmas
  // ---------------------------------------------------------------------------

  /** None of the exact translation keys is in the `death.` family. */
  lemma ExactKeysAreNotDeaths()
    ensures !StartsWith(PLAYER_LEFT_KEY, DEATH_PREFIX)
    ensures !StartsWith(PLAYER_JOINED_KEY, DEATH_PREFIX)
    ensures !StartsWith(SKIPPING_NIGHT_KEY, DEATH_PREFIX)
  {
    assert PLAYER_LEFT_KEY[0] != DEATH_PREFIX[0];
    assert PLAYER_JOINED_KEY[0] != DEATH_PREFIX[0];
    assert SKIPPING_NIGHT_KEY[0] != DEATH_PREFIX[0];
  }

  /**
   * The five handlers, all run on every packet, log exactly what the
   * classifier translates the packet to: their guards are mutually exclusive.
   */
  lemma DispatchIsTranslate(p: Packet)
    ensures Lines(p) == Translate(p).ToSeq()
  {
    ExactKeysAreNotDeaths();
    assert CHAT_TYPE != ANNOUNCEMENT_TYPE && CHAT_TYPE != TRANSLATION_TYPE && ANNOUNCEMENT_TYPE != TRANSLATION_TYPE;
    assert PLAYER_LEFT_KEY != PLAYER_JOINED_KEY && PLAYER_LEFT_KEY != SKIPPING_NIGHT_KEY && PLAYER_JOINED_KEY != SKIPPING_NIGHT_KEY;
    if p.kind != TRANSLATION_TYPE {
      assert ProcessConnections(p) == [] && ProcessPlayerActions(p) == [] && ProcessDeaths(p) == [];
    } else {
      assert ProcessChat(p) == [] && ProcessAnnouncements(p) == [];
    }
  }

  /** Every packet produces at most one line. */
  lemma AtMostOneLine(p: Packet)
    ensures |Lines(p)| <= 1
  {
    DispatchIsTranslate(p);
  }

  /** A chat packet yields "[speaker] message" and nothing else. */
  lemma ChatPacket(p: Packet)
    requires p.kind == CHAT_TYPE
    ensures Lines(p) == ["[" + p.sourceName + "] " + p.message]
  {
    DispatchIsTranslate(p);
  }

  /** An announcement yields its message verbatim. */
  lemma AnnouncementPacket(p: Packet)
    requires p.kind == ANNOUNCEMENT_TYPE
    ensures Lines(p) == [p.message]
  {
    DispatchIsTranslate(p);
  }

  /** The join and leave keys yield the joined / left narrative for the first parameter. */
  lemma ConnectionPackets(p: Packet)
    requires p.kind == TRANSLATION_TYPE && |p.parameters| > 0
    ensures p.message == PLAYER_JOINED_KEY ==> Lines(p) == ["* [" + p.parameters[0] + "] joined the game."]
    ensures p.message == PLAYER_LEFT_KEY ==> Lines(p) == ["* [" + p.parameters[0] + "] left the game."]
  {
    DispatchIsTranslate(p);
  }

  /** Without parameters, the join and leave lines show the player as `undefined`. */
  lemma ConnectionPacketsWithoutPlayer(p: Packet)
    requires p.kind == TRANSLATION_TYPE && p.parameters == []
    ensures p.message == PLAYER_JOINED_KEY ==> Lines(p) == ["* [" + "undefined" + "] joined the game."]
    ensures p.message == PLAYER_LEFT_KEY ==> Lines(p) == ["* [" + "undefined" + "] left the game."]
  {
    DispatchIsTranslate(p);
  }

  /** The skipping-night key yields a fixed line, whatever the parameters. */
  lemma SkippingNightPacket(p: Packet)
    requires p.kind == TRANSLATION_TYPE && p.message == SKIPPING_NIGHT_KEY
    ensures Lines(p) == ["* Players are skipping the night."]
  {
    DispatchIsTranslate(p);
  }

  /** A packet of any type other than the three handled ones produces nothing. */
  lemma OtherTypesIgnored(p: Packet)
    requires p.kind != CHAT_TYPE && p.kind != ANNOUNCEMENT_TYPE && p.kind != TRANSLATION_TYPE
    ensures Lines(p) == []
  {
    DispatchIsTranslate(p);
  }

  /** A translation key outside every family produces nothing: there is no catch-all. */
  lemma UnknownTranslationIgnored(p: Packet)
    requires p.kind == TRANSLATION_TYPE
    requires p.message != PLAYER_LEFT_KEY && p.message != PLAYER_JOINED_KEY
    requires p.message != SKIPPING_NIGHT_KEY && !StartsWith(p.message, DEATH_PREFIX)
    ensures Lines(p) == []
  {
    DispatchIsTranslate(p);
  }

  /** A packet produces a line exactly when it is chat, an announcement, or a translation in a known family. */
  lemma ProducesLineIff(p: Packet)
    ensures |Lines(p)| == 1 <==>
      (p.kind == CHAT_TYPE || p.kind == ANNOUNCEMENT_TYPE ||
       (p.kind == TRANSLATION_TYPE &&
        (p.message == PLAYER_LEFT_KEY || p.message == PLAYER_JOINED_KEY ||
         p.message == SKIPPING_NIGHT_KEY || StartsWith(p.message, DEATH_PREFIX))))
  {
    DispatchIsTranslate(p);
  }

  /** A chain over a table that does not list the key leaves the reason as it was. */
  lemma {:induction false} ChainUnlisted(table: seq<(string, string)>, key: string, reason: string)
    requires !Listed(table, key)
    ensures ReassignChain(table, key, reason) == reason
    decreases |table|
  {
    if table != [] {
      assert !Listed(table[1..], key) by {
        forall i | 0 <= i < |table[1..]| ensures table[1..][i].0 != key {
          assert table[1..][i] == table[i + 1];
        }
      }
      ChainUnlisted(table[1..], key, reason);
    }
  }

  /** A chain over a table with distinct keys ends with the phrase of the key's one entry. */
  lemma {:induction false} ChainListed(table: seq<(string, string)>, key: string, reason: string, i: nat)
    requires DistinctKeys(table)
    requires i < |table| && table[i].0 == key
    ensures ReassignChain(table, key, reason) == table[i].1
    decreases |table|
  {
    var next := if key == table[0].0 then table[0].1 else reason;
    if i == 0 {
      assert !Listed(table[1..], key) by {
        forall j | 0 <= j < |table[1..]| ensures table[1..][j].0 != key {
          assert table[1..][j] == table[j + 1];
        }
      }
      ChainUnlisted(table[1..], key, next);
    } else {
      assert DistinctKeys(table[1..]) by {
        forall a, b | 0 <= a < b < |table[1..]| ensures table[1..][a].0 != table[1..][b].0 {
          assert table[1..][a] == table[a + 1] && table[1..][b] == table[b + 1];
        }
      }
      assert table[1..][i - 1] == table[i];
      ChainListed(table[1..], key, next, i - 1);
    }
  }

  /** No death key is listed twice, so the table is a function. */
  lemma DeathKeysDistinct()
    ensures DistinctKeys(DEATH_PHRASES)
  {
    LaterKeysDiffer0();
    LaterKeysDiffer1();
    LaterKeysDiffer2();
    LaterKeysDiffer3();
    LaterKeysDiffer4();
    LaterKeysDiffer5();
  }

  /** A key's length and its 14th and 15th characters: enough to tell the death keys apart. */
  function KeySig(k: string): (int, char, char) {
    if |k| > 14 then (|k|, k[13], k[14]) else (|k|, ' ', ' ')
  }

  // The pairwise comparison of the 27 keys, in slices of rows the solver
  // checks one at a time.

  lemma LaterKeysDiffer0()
    ensures forall i, j :: 0 <= i < 3 && i < j < |DEATH_PHRASES| ==>
      KeySig(DEATH_PHRASES[i].0) != KeySig(DEATH_PHRASES[j].0)
  {
  }

  lemma LaterKeysDiffer1()
    ensures forall i, j :: 3 <= i < 6 && i < j < |DEATH_PHRASES| ==>
      KeySig(DEATH_PHRASES[i].0) != KeySig(DEATH_PHRASES[j].0)
  {
  }

  lemma LaterKeysDiffer2()
    ensures forall i, j :: 6 <= i < 9 && i < j < |DEATH_PHRASES| ==>
      KeySig(DEATH_PHRASES[i].0) != KeySig(DEATH_PHRASES[j].0)
  {
  }

  lemma LaterKeysDiffer3()
    ensures forall i, j :: 9 <= i < 13 && i < j < |DEATH_PHRASES| ==>
      KeySig(DEATH_PHRASES[i].0) != KeySig(DEATH_PHRASES[j].0)
  {
  }

  lemma LaterKeysDiffer4()
    ensures forall i, j :: 13 <= i < 18 && i < j < |DEATH_PHRASES| ==>
      KeySig(DEATH_PHRASES[i].0) != KeySig(DEATH_PHRASES[j].0)
  {
  }

  lemma LaterKeysDiffer5()
    ensures forall i, j :: 18 <= i < 27 && i < j < |DEATH_PHRASES| ==>
      KeySig(DEATH_PHRASES[i].0) != KeySig(DEATH_PHRASES[j].0)
  {
  }

  /** In a table with distinct keys, each key maps to its own phrase and nothing else is a key. */
  lemma TableMapLookup(table: seq<(string, string)>, i: nat)
    requires DistinctKeys(table) && i < |table|
    ensures table[i].0 in TableMap(table) && TableMap(table)[table[i].0] == table[i].1
  {
  }

  /** Each listed death key gets exactly its own phrase. */
  lemma DeathReasonListed(i: nat)
    requires i < |DEATH_PHRASES|
    ensures DeathReason(DEATH_PHRASES[i].0) == DEATH_PHRASES[i].1
  {
    DeathKeysDistinct();
    TableMapLookup(DEATH_PHRASES, i);
  }

  /** An unlisted death key falls back to the raw key. */
  lemma DeathReasonFallback(key: string)
    requires !Listed(DEATH_PHRASES, key)
    ensures DeathReason(key) == key
  {
  }

  /**
   * The source's reassignment chain, run from the raw key, computes exactly
   * the table lookup with the raw key as fallback.
   */
  lemma DeathReasonIsChain(key: string)
    ensures ReassignChain(DEATH_PHRASES, key, key) == DeathReason(key)
  {
    DeathKeysDistinct();
    if Listed(DEATH_PHRASES, key) {
      var i :| 0 <= i < |DEATH_PHRASES| && DEATH_PHRASES[i].0 == key;
      ChainListed(DEATH_PHRASES, key, key, i);
      DeathReasonListed(i);
    } else {
      ChainUnlisted(DEATH_PHRASES, key, key);
    }
  }

  /** Lava, as listed. */
  lemma LavaPhrase()
    ensures DeathReason("death.attack.lava") == "was burnt to a crisp whilst fighting"
  {
    DeathReasonListed(26);
  }

  /** Drowning, as listed. */
  lemma DrownPhrase()
    ensures DeathReason("death.attack.drown") == "drowned"
  {
    DeathReasonListed(13);
  }

  /** Magic and potion deaths share one phrase. */
  lemma MagicAndPotionAgree()
    ensures DeathReason("death.attack.magic") == DeathReason("death.attack.potion") == "was killed by magic"
  {
    DeathReasonListed(8);
    DeathReasonListed(24);
  }

  /**
   * Any translation whose key starts with `death.` yields exactly one line
   * "* [player] reason<suffix>." — the event is never dropped.
   */
  lemma DeathPacket(p: Packet)
    requires p.kind == TRANSLATION_TYPE && StartsWith(p.message, DEATH_PREFIX)
    ensures Lines(p) == [DeathLine(p.parameters, DeathReason(p.message))]
  {
    DispatchIsTranslate(p);
  }

  /** The reason is the listed phrase of the key, or the raw key when unlisted. */
  lemma DeathReasonLookup(key: string)
    ensures Listed(DEATH_PHRASES, key) ==>
      exists i :: 0 <= i < |DEATH_PHRASES| && DEATH_PHRASES[i].0 == key && DeathReason(key) == DEATH_PHRASES[i].1
    ensures !Listed(DEATH_PHRASES, key) ==> DeathReason(key) == key
  {
    if Listed(DEATH_PHRASES, key) {
      var i :| 0 <= i < |DEATH_PHRASES| && DEATH_PHRASES[i].0 == key;
      DeathReasonListed(i);
    } else {
      DeathReasonFallback(key);
    }
  }

  /**
   * The cause suffix: with two or more parameters the reason is followed by
   * " caused by [<second parameter>]" copied verbatim; with fewer there is
   * none, and with no parameters the player reads `null`.
   */
  lemma DeathCause(ps: seq<string>, reason: string)
    ensures |ps| > 1 ==>
      DeathLine(ps, reason) == "* [" + ps[0] + "] " + reason + " caused by [" + ps[1] + "]."
    ensures |ps| == 1 ==> DeathLine(ps, reason) == "* [" + ps[0] + "] " + reason + "."
    ensures |ps| == 0 ==> DeathLine(ps, reason) == "* [null] " + reason + "."
  {
    var s := "* [" + DeathPlayer(ps) + "] " + reason;
    if |ps| > 1 {
      assert s + (" caused by [" + ps[1] + "]") + "." == s + " caused by [" + ps[1] + "]" + ".";
    } else {
      assert s + "" + "." == s + ".";
      if |ps| == 0 {
        assert "* [" + "null" + "] " == "* [null] ";
      }
    }
  }

  /** A death line always ends in "." and starts with the bracketed player name. */
  lemma DeathLineShape(ps: seq<string>, reason: string)
    ensures DeathLine(ps, reason)[|DeathLine(ps, reason)| - 1] == '.'
    ensures StartsWith(DeathLine(ps, reason), "* [" + DeathPlayer(ps) + "] ")
  {
    var head := "* [" + DeathPlayer(ps) + "] ";
    var line := head + reason + DeathSuffix(ps) + ".";
    assert line == head + (reason + DeathSuffix(ps) + ".");
    assert line[..|head|] == head;
  }

  /** A chat packet from Alice saying Hello logs "[Alice] Hello". */
  lemma ChatExample()
    ensures Lines(Packet("chat", "Alice", "Hello", [])) == ["[Alice] Hello"]
  {
    ChatPacket(Packet("chat", "Alice", "Hello", []));
    assert "[" + "Alice" + "] " + "Hello" == "[Alice] Hello";
  }

  /** Bob dying in lava. */
  lemma LavaExample()
    ensures Lines(Packet("translation", "", "death.attack.lava", ["Bob"]))
         == ["* [" + "Bob" + "] " + "was burnt to a crisp whilst fighting" + "."]
  {
    var p := Packet("translation", "", "death.attack.lava", ["Bob"]);
    LavaPhrase();
    assert StartsWith(p.message, DEATH_PREFIX);
    DeathPacket(p);
    DeathCause(p.parameters, DeathReason(p.message));
  }

  /** Bob killed by a zombie: the entity key is appended raw, not stripped. */
  lemma MobExample()
    ensures Lines(Packet("translation", "", "death.attack.mob", ["Bob", "%entity.zombie.name"]))
         == ["* [" + "Bob" + "] " + "was killed" + " caused by [" + "%entity.zombie.name" + "]."]
  {
    var p := Packet("translation", "", "death.attack.mob", ["Bob", "%entity.zombie.name"]);
    DeathReasonListed(1);
    assert StartsWith(p.message, DEATH_PREFIX);
    DeathPacket(p);
    DeathCause(p.parameters, DeathReason(p.message));
  }
}
