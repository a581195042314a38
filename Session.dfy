/**
 * The bot's event handlers: the `text` handler, which runs the five
 * translators on each packet and logs what they produce, and the `kick`
 * handler, which narrates the three known kick messages and always asks for
 * a reconnect after a fixed delay.
 */
module Session {
  import opened Wrappers
  import opened Translation
  import opened LogWriter

  const KICKED_MESSAGE := "%disconnect.kicked"
  const TIMEOUT_MESSAGE := "%disconnect.timeout"
  const SERVER_ID_CONFLICT_MESSAGE := "disconnectionScreen.serverIdConflict"

  /** The delay, in milliseconds, of the reconnect every kick schedules. */
  const RECONNECT_DELAY_MS: nat := 5000

  const KICKED_PHRASE := "was kicked from the server."
  const TIMED_OUT_PHRASE := "was disconnected from the server."
  const ALREADY_PRESENT_PHRASE := "was already present on the server."

  /** "Bot [<username>] <phrase> (<raw kick message>)" */
  function KickLine(username: string, phrase: string, message: string): string {
    "Bot [" + username + "] " + phrase + " (" + message + ")"
  }

  /** The kick handler's three independent tests, in source order, and the lines they log. */
  function KickLines(username: string, message: string): seq<string> {
    (if message == KICKED_MESSAGE then [KickLine(username, KICKED_PHRASE, message)] else [])
    + (if message == TIMEOUT_MESSAGE then [KickLine(username, TIMED_OUT_PHRASE, message)] else [])
    + (if message == SERVER_ID_CONFLICT_MESSAGE then [KickLine(username, ALREADY_PRESENT_PHRASE, message)] else [])
  }

  /** The narrative of a kick: one per known kick message, none for any other. */
  function KickNarrative(username: string, message: string): Option<string> {
    if message == KICKED_MESSAGE then Some(KickLine(username, KICKED_PHRASE, message))
    else if message == TIMEOUT_MESSAGE then Some(KickLine(username, TIMED_OUT_PHRASE, message))
    else if message == SERVER_ID_CONFLICT_MESSAGE then Some(KickLine(username, ALREADY_PRESENT_PHRASE, message))
    else None
  }

  /** The lines logged for a sequence of lines produced at one instant. */
  function Entries(lines: seq<string>, today: string, time: string): (es: seq<Entry>)
    ensures |es| == |lines|
    ensures forall i :: 0 <= i < |lines| ==> es[i] == Entry(today, time, lines[i])
  {
    if lines == [] then [] else [Entry(today, time, lines[0])] + Entries(lines[1..], today, time)
  }

  // ---------------------------------------------------------------------------
  // Lemmas
  // ---------------------------------------------------------------------------

  /** The three tests are exclusive: the kick handler logs the narrative, if any, and nothing else. */
  lemma KickLinesAreNarrative(username: string, message: string)
    ensures KickLines(username, message) == KickNarrative(username, message).ToSeq()
  {
    assert KICKED_MESSAGE != TIMEOUT_MESSAGE;
    assert KICKED_MESSAGE != SERVER_ID_CONFLICT_MESSAGE;
    assert TIMEOUT_MESSAGE != SERVER_ID_CONFLICT_MESSAGE;
  }

  /** A kick is narrated exactly when its message is one of the three known ones. */
  lemma KickNarratedIff(username: string, message: string)
    ensures |KickLines(username, message)| == 1 <==>
      message == KICKED_MESSAGE || message == TIMEOUT_MESSAGE || message == SERVER_ID_CONFLICT_MESSAGE
    ensures |KickLines(username, message)| <= 1
  {
    KickLinesAreNarrative(username, message);
  }

  /** A kick line starts with the bracketed bot name and ends with the quoted kick message. */
  lemma KickLineShape(username: string, phrase: string, message: string)
    ensures var line := KickLine(username, phrase, message);
      var head := "Bot [" + username + "] ";
      var tail := "(" + message + ")";
      |head| + |tail| <= |line| && line[..|head|] == head && line[|line| - |tail|..] == tail
  {
    var head := "Bot [" + username + "] ";
    var tail := "(" + message + ")";
    var line := KickLine(username, phrase, message);
    assert " (" + message + ")" == " " + tail;
    assert line == head + (phrase + " ") + tail;
  }

  /** Every narrative names the bot and quotes the raw kick message. */
  lemma KickNarrativeShape(username: string, message: string)
    requires KickNarrative(username, message).Some?
    ensures var line := KickNarrative(username, message).value;
      var head := "Bot [" + username + "] ";
      var tail := "(" + message + ")";
      |head| + |tail| <= |line| && line[..|head|] == head && line[|line| - |tail|..] == tail
  {
    var phrase :=
      if message == KICKED_MESSAGE then KICKED_PHRASE
      else if message == TIMEOUT_MESSAGE then TIMED_OUT_PHRASE
      else ALREADY_PRESENT_PHRASE;
    assert KickNarrative(username, message).value == KickLine(username, phrase, message);
    KickLineShape(username, phrase, message);
  }

  /** Lines whose phrases already differ in their fifth character are different lines. */
  lemma KickLinesDiffer(username: string, p1: string, m1: string, p2: string, m2: string)
    requires |p1| > 4 && |p2| > 4 && p1[4] != p2[4]
    ensures KickLine(username, p1, m1) != KickLine(username, p2, m2)
  {
    var head := "Bot [" + username + "] ";
    var l1 := KickLine(username, p1, m1);
    var l2 := KickLine(username, p2, m2);
    assert l1 == head + (p1 + " (" + m1 + ")");
    assert l2 == head + (p2 + " (" + m2 + ")");
    assert l1[|head| + 4] == p1[4];
    assert l2[|head| + 4] == p2[4];
  }

  /** The three known kick messages give three different narratives. */
  lemma KickNarrativesDistinct(username: string)
    ensures KickNarrative(username, KICKED_MESSAGE) != KickNarrative(username, TIMEOUT_MESSAGE)
    ensures KickNarrative(username, KICKED_MESSAGE) != KickNarrative(username, SERVER_ID_CONFLICT_MESSAGE)
    ensures KickNarrative(username, TIMEOUT_MESSAGE) != KickNarrative(username, SERVER_ID_CONFLICT_MESSAGE)
  {
    assert KICKED_PHRASE[4] == 'k' && TIMED_OUT_PHRASE[4] == 'd' && ALREADY_PRESENT_PHRASE[4] == 'a';
    KickLinesDiffer(username, KICKED_PHRASE, KICKED_MESSAGE, TIMED_OUT_PHRASE, TIMEOUT_MESSAGE);
    KickLinesDiffer(username, KICKED_PHRASE, KICKED_MESSAGE, ALREADY_PRESENT_PHRASE, SERVER_ID_CONFLICT_MESSAGE);
    KickLinesDiffer(username, TIMED_OUT_PHRASE, TIMEOUT_MESSAGE, ALREADY_PRESENT_PHRASE, SERVER_ID_CONFLICT_MESSAGE);
  }

  // ---------------------------------------------------------------------------
  // The bot
  // ---------------------------------------------------------------------------

  class Bot {
    const username: string
    const logger: RollingLog
    /** The delay of every reconnect the kick handler has scheduled, in order. */
    var reconnects: seq<nat>

    ghost predicate Valid()
      reads this, logger
    {
      logger.Valid()
    }

    constructor (username: string, logFolder: string, prefix: string, disk: map<string, seq<string>>)
      ensures Valid() && fresh(logger)
      ensures this.username == username && reconnects == []
      ensures logger.State() == Initial(logFolder, prefix, disk) && logger.console == []
    {
      this.username := username;
      logger := new RollingLog(logFolder, prefix, disk);
      reconnects := [];
    }

    /**
     * The `text` handler: the five translators run on the packet and each
     * line they produce is logged at this instant. At most one is.
     */
    method OnText(p: Packet, today: string, time: string)
      requires Valid()
      modifies logger
      ensures Valid()
      ensures logger.State() == WriteAll(old(logger.State()), Entries(Lines(p), today, time))
      ensures Translate(p).None? ==>
        logger.State() == old(logger.State()) && logger.console == old(logger.console)
      ensures Translate(p).Some? ==>
        && logger.State() == Write(old(logger.State()), today, time, Translate(p).value)
        && logger.console == old(logger.console) + [ConsoleLine(time, Translate(p).value)]
    {
      var lines := Lines(p);
      DispatchIsTranslate(p);
      if lines != [] {
        logger.Log(lines[0], today, time);
        assert Entries(lines, today, time) == [Entry(today, time, lines[0])];
      }
    }

    /**
     * The `kick` handler: a known kick message is narrated, and whatever the
     * message, a reconnect is scheduled after the fixed delay.
     */
    method OnKick(message: string, today: string, time: string)
      requires Valid()
      modifies this, logger
      ensures Valid()
      ensures logger.State() == WriteAll(old(logger.State()), Entries(KickLines(username, message), today, time))
      ensures KickNarrative(username, message).None? ==>
        logger.State() == old(logger.State()) && logger.console == old(logger.console)
      ensures KickNarrative(username, message).Some? ==>
        && logger.State() == Write(old(logger.State()), today, time, KickNarrative(username, message).value)
        && logger.console == old(logger.console) + [ConsoleLine(time, KickNarrative(username, message).value)]
      ensures reconnects == old(reconnects) + [RECONNECT_DELAY_MS]
    {
      var lines := KickLines(username, message);
      KickLinesAreNarrative(username, message);
      if lines != [] {
        logger.Log(lines[0], today, time);
        assert Entries(lines, today, time) == [Entry(today, time, lines[0])];
      }
      reconnects := reconnects + [RECONNECT_DELAY_MS];
    }
  }
}
