/**
 * The console command layer of main.js:328-483: splitting a line into
 * words, JavaScript's `parseInt` in radix 10, the `host:port` split, the
 * parse of a command and its dispatch with the maintenance-mode gate.
 */
module Commands {
  import opened Optional
  import Naming
  import opened Orchestrator
  import opened Policy

  /** Port used when a server address names none (main.js:17, 370). */
  const DefaultPort: int := 25565
  /** Largest fleet `start` accepts (main.js:364). */
  const MaxFleetSize: int := 100

  /** The ASCII characters the pattern `\s` matches. */
  predicate IsSpace(c: char)
  {
    c == ' ' || 9 <= c as int <= 13
  }

  /** A word of a command line: non-empty, no white space. */
  predicate IsWord(w: string)
  {
    w != [] && forall i :: 0 <= i < |w| ==> !IsSpace(w[i])
  }

  /** Length of the run of non-space characters that starts `s`. */
  function SpanWord(s: string): (k: nat)
    ensures k <= |s|
    ensures forall i :: 0 <= i < k ==> !IsSpace(s[i])
    ensures k < |s| ==> IsSpace(s[k])
  {
    if s == [] || IsSpace(s[0]) then 0 else 1 + SpanWord(s[1..])
  }

  /**
   * `line.trim().split(/\s+/)` (main.js:329), with the one-element result
   * `[""]` of a blank line written as no words at all.
   */
  function Words(s: string): (ws: seq<string>)
    ensures forall i :: 0 <= i < |ws| ==> IsWord(ws[i])
    decreases |s|
  {
    if s == [] then []
    else if IsSpace(s[0]) then Words(s[1..])
    else
      var k := SpanWord(s);
      [s[..k]] + Words(s[k..])
  }

  /** `words.join(' ')` (main.js:445). */
  function Join(ws: seq<string>): (line: string)
    ensures |ws| > 0 ==> ws[0] <= line
  {
    if |ws| == 0 then []
    else if |ws| == 1 then ws[0]
    else ws[0] + [' '] + Join(ws[1..])
  }

  lemma {:induction false} SpanWordOf(w: string, rest: string)
    requires IsWord(w) && (rest == [] || IsSpace(rest[0]))
    ensures SpanWord(w + rest) == |w|
    decreases |w|
  {
    var s := w + rest;
    if |w| > 1 {
      SpanWordOf(w[1..], rest);
      assert s[1..] == w[1..] + rest;
    } else {
      assert s[1..] == rest;
    }
  }

  /** A word followed by white space or the end is split off as one word. */
  lemma WordsOfWord(w: string, rest: string)
    requires IsWord(w) && (rest == [] || IsSpace(rest[0]))
    ensures Words(w + rest) == [w] + Words(rest)
  {
    SpanWordOf(w, rest);
    var s := w + rest;
    assert s[..|w|] == w && s[|w|..] == rest;
  }

  /** Splitting words joined by single spaces gives the words back. */
  lemma {:induction false} WordsJoin(ws: seq<string>)
    requires forall i :: 0 <= i < |ws| ==> IsWord(ws[i])
    ensures Words(Join(ws)) == ws
    decreases |ws|
  {
    if |ws| == 1 {
      WordsOfWord(ws[0], []);
      assert ws[0] + [] == ws[0];
    } else if |ws| > 1 {
      var rest := Join(ws[1..]);
      var tail := [' '] + rest;
      WordsOfWord(ws[0], tail);
      assert Join(ws) == ws[0] + tail;
      assert tail[1..] == rest;
      assert Words(tail) == Words(rest);
      WordsJoin(ws[1..]);
      assert ws == [ws[0]] + ws[1..];
    }
  }

  /** `toLowerCase` on one character; only ASCII letters change. */
  function LowerChar(c: char): (l: char)
    ensures !('A' <= l <= 'Z')
    ensures !('A' <= c <= 'Z') ==> l == c
  {
    if 'A' <= c <= 'Z' then (c as int + 32) as char else c
  }

  function Lower(s: string): (r: string)
    ensures |r| == |s| && forall i :: 0 <= i < |s| ==> r[i] == LowerChar(s[i])
  {
    if s == [] then [] else [LowerChar(s[0])] + Lower(s[1..])
  }

  /** Length of the run of decimal digits that starts `s`. */
  function DigitRun(s: string): (k: nat)
    ensures k <= |s|
    ensures forall i :: 0 <= i < k ==> Naming.IsDigit(s[i])
    ensures k < |s| ==> !Naming.IsDigit(s[k])
  {
    if s == [] || !Naming.IsDigit(s[0]) then 0 else 1 + DigitRun(s[1..])
  }

  /** The value of the leading digits of `s`; `None` (NaN) when there are none. */
  function ParseDigits(s: string): (v: Option<int>)
    ensures v.Some? <==> s != [] && Naming.IsDigit(s[0])
    ensures v.Some? ==> v.value >= 0
  {
    var k := DigitRun(s);
    if k == 0 then None else Some(Naming.DecimalValue(s[..k]))
  }

  /**
   * `parseInt(s, 10)`: skip leading white space, read an optional sign and
   * then as many decimal digits as there are; `None` stands for NaN.
   */
  function ParseInt(s: string): (v: Option<int>)
    ensures (forall i :: 0 <= i < |s| ==> IsSpace(s[i])) ==> v == None
    decreases |s|
  {
    if s == [] then None
    else if IsSpace(s[0]) then ParseInt(s[1..])
    else if s[0] == '-' then
      match ParseDigits(s[1..])
      case None => None
      case Some(v) => Some(-v)
    else if s[0] == '+' then ParseDigits(s[1..])
    else ParseDigits(s)
  }

  lemma {:induction false} DigitRunOf(d: string, t: string)
    requires Naming.AllDigits(d) && (t == [] || !Naming.IsDigit(t[0]))
    ensures DigitRun(d + t) == |d|
    decreases |d|
  {
    var s := d + t;
    if d != [] {
      DigitRunOf(d[1..], t);
      assert s[1..] == d[1..] + t;
    } else {
      assert s == t;
    }
  }

  /** The decimal digits of `n` read back as `n`, whatever non-digit text follows. */
  lemma ParseDigitsDecimal(n: nat, t: string)
    requires t == [] || !Naming.IsDigit(t[0])
    ensures ParseDigits(Naming.Decimal(n) + t) == Some(n)
  {
    var d := Naming.Decimal(n);
    Naming.DecimalRoundTrip(n);
    Naming.DecimalShape(n);
    DigitRunOf(d, t);
    assert (d + t)[..|d|] == d;
  }

  /**
   * `parseInt` inverts `String` on integers: the decimal form of `n`, with
   * a minus sign when `n` is negative, parses back to `n`, and a non-digit
   * suffix (as in `12abc`) is ignored.
   */
  lemma ParseIntDecimal(n: int, t: string)
    requires t == [] || !Naming.IsDigit(t[0])
    ensures ParseInt((if n < 0 then ['-'] else []) + Naming.Decimal(if n < 0 then -n else n) + t) == Some(n)
  {
    var m: nat := if n < 0 then -n else n;
    var d := Naming.Decimal(m);
    ParseDigitsDecimal(m, t);
    Naming.DecimalShape(m);
    var c := d[0];
    assert Naming.IsDigit(c);
    assert !IsSpace(c) && c != '-' && c != '+';
    var u := d + t;
    assert u[0] == c;
    if n < 0 {
      var s := ['-'] + u;
      assert s[0] == '-' && s[1..] == u;
      assert ['-'] + d + t == s;
    } else {
      assert [] + d + t == u;
    }
  }

  /** Index of the first `:` in `s`, or `|s|` when there is none. */
  function ColonAt(s: string): (k: nat)
    ensures k <= |s|
    ensures forall i :: 0 <= i < k ==> s[i] != ':'
    ensures k < |s| ==> s[k] == ':'
  {
    if s == [] || s[0] == ':' then 0 else 1 + ColonAt(s[1..])
  }

  /**
   * `const [ip, port] = server.split(':')` (main.js:362): the text before
   * the first colon, and the text between the first and the second colon
   * (`None` for `undefined` when there is no colon).
   */
  function SplitServer(server: string): (parts: (string, Option<string>))
    ensures |parts.0| <= |server| && parts.0 == server[..|parts.0|]
    ensures forall i :: 0 <= i < |parts.0| ==> parts.0[i] != ':'
    ensures parts.1.None? <==> forall i :: 0 <= i < |server| ==> server[i] != ':'
    ensures parts.1.Some? ==> forall i :: 0 <= i < |parts.1.value| ==> parts.1.value[i] != ':'
    ensures parts.1.None? ==> parts.0 == server
    ensures parts.1.Some? ==>
              var k := |parts.0|;
              && k < |server| && server[k] == ':'
              && parts.1.value <= server[k + 1..]
              && (k + 1 + |parts.1.value| == |server| || server[k + 1 + |parts.1.value|] == ':')
  {
    var k := ColonAt(server);
    if k == |server| then (server, None)
    else
      var rest := server[k + 1..];
      (server[..k], Some(rest[..ColonAt(rest)]))
  }

  /** `port ? parseInt(port, 10) : 25565` (main.js:370): an empty port counts as absent. */
  function PortOf(piece: Option<string>): (port: Port)
    ensures piece.None? || piece.value == [] ==> port == Some(DefaultPort)
    ensures piece.Some? && piece.value != [] && Naming.AllDigits(piece.value) ==>
              port == Some(Naming.DecimalValue(piece.value))
  {
    if piece.None? || piece.value == [] then Some(DefaultPort)
    else
      if Naming.AllDigits(piece.value) then
        DigitRunOf(piece.value, []);
        assert piece.value + [] == piece.value;
        assert piece.value[..|piece.value|] == piece.value;
        ParseInt(piece.value)
      else ParseInt(piece.value)
  }

  /** Appending `:port` to a colon-free host is undone by the split. */
  lemma SplitServerRoundTrip(host: string, port: nat)
    requires forall i :: 0 <= i < |host| ==> host[i] != ':'
    ensures SplitServer(host) == (host, None)
    ensures var (ip, piece) := SplitServer(host + [':'] + Naming.Decimal(port));
            ip == host && PortOf(piece) == Some(port)
  {
    var d := Naming.Decimal(port);
    var s := host + [':'] + d;
    assert ColonAt(host) == |host|;
    assert ColonAt(s) == |host| by {
      assert s[|host|] == ':';
      assert forall i :: 0 <= i < |host| ==> s[i] == host[i];
    }
    assert s[..|host|] == host;
    assert s[|host| + 1..] == d;
    Naming.DecimalShape(port);
    assert ColonAt(d) == |d| by {
      assert forall i :: 0 <= i < |d| ==> Naming.IsDigit(d[i]);
    }
    assert d[..|d|] == d;
    ParseIntDecimal(port, []);
    var none: string := [];
    assert none + d + none == d;
    assert SplitServer(s) == (host, Some(d));
  }

  /** A command line as `handleCommand` understands it (main.js:328-481). */
  datatype Command =
    | Blank                                       // nothing but white space
    | Stop
    | StartUsage                                  // `start` with fewer than three arguments
    | InvalidCount                                // `start` whose count is NaN or outside 1..100
    | StartFleet(count: int, prefix: string, ip: string, port: Port)
    | ListBots
    | ShowStatus
    | ShowHelp
    | KickUsage
    | KickBot(name: string)
    | RestoreUsage
    | RestoreBot(name: string)
    | SayUsage
    | Broadcast(message: string)                  // `say <message>`
    | Whisper(target: string, message: string)    // `say <name> <words...>`
    | Unknown

  /** A count `start` accepts (main.js:364). */
  predicate ValidCount(count: Option<int>)
  {
    count.Some? && 0 < count.value <= MaxFleetSize
  }

  /** The command words `handleCommand` knows (main.js:335, 353-476). */
  const CommandWords: set<string> := {"stop", "start", "bots", "kick", "restore", "say", "status", "help"}

  /**
   * What a line of words asks for. The command word is compared after
   * lower-casing; arguments are taken as they are, extra ones ignored.
   */
  function Parse(ws: seq<string>): (c: Command)
    ensures c == Blank <==> ws == []
    ensures c == Stop <==> ws != [] && Lower(ws[0]) == "stop"
    ensures c.StartFleet? <==> ws != [] && Lower(ws[0]) == "start" && |ws| >= 4 && ValidCount(ParseInt(ws[1]))
    ensures c.StartFleet? ==>
              && 1 <= c.count <= MaxFleetSize && Some(c.count) == ParseInt(ws[1]) && c.prefix == ws[2]
              && c.ip == SplitServer(ws[3]).0 && c.port == PortOf(SplitServer(ws[3]).1)
    ensures c.Broadcast? <==> ws != [] && Lower(ws[0]) == "say" && |ws| == 2
    ensures c.Whisper? <==> ws != [] && Lower(ws[0]) == "say" && |ws| > 2
    ensures c.Broadcast? ==> c.message == ws[1]
    ensures c.Whisper? ==> c.target == ws[1] && c.message == Join(ws[2..])
    ensures c == StartUsage <==> ws != [] && Lower(ws[0]) == "start" && |ws| < 4
    ensures c == InvalidCount <==> ws != [] && Lower(ws[0]) == "start" && |ws| >= 4 && !ValidCount(ParseInt(ws[1]))
    ensures c.KickBot? <==> ws != [] && Lower(ws[0]) == "kick" && |ws| >= 2
    ensures c.KickBot? ==> c.name == ws[1]
    ensures c == KickUsage <==> ws != [] && Lower(ws[0]) == "kick" && |ws| < 2
    ensures c.RestoreBot? <==> ws != [] && Lower(ws[0]) == "restore" && |ws| >= 2
    ensures c.RestoreBot? ==> c.name == ws[1]
    ensures c == RestoreUsage <==> ws != [] && Lower(ws[0]) == "restore" && |ws| < 2
    ensures c == SayUsage <==> ws != [] && Lower(ws[0]) == "say" && |ws| < 2
    ensures c == ListBots <==> ws != [] && Lower(ws[0]) == "bots"
    ensures c == ShowStatus <==> ws != [] && Lower(ws[0]) == "status"
    ensures c == ShowHelp <==> ws != [] && Lower(ws[0]) == "help"
    ensures c == Unknown <==> ws != [] && Lower(ws[0]) !in CommandWords
  {
    if ws == [] then Blank
    else
      match Lower(ws[0])
      case "stop" => Stop
      case "start" =>
        if |ws| < 4 then StartUsage
        else
          var count := ParseInt(ws[1]);
          if !ValidCount(count) then InvalidCount
          else
            var (ip, piece) := SplitServer(ws[3]);
            StartFleet(count.value, ws[2], ip, PortOf(piece))
      case "bots" => ListBots
      case "kick" => if |ws| < 2 then KickUsage else KickBot(ws[1])
      case "restore" => if |ws| < 2 then RestoreUsage else RestoreBot(ws[1])
      case "say" =>
        if |ws| < 2 then SayUsage
        else if |ws| == 2 then Broadcast(ws[1])
        else Whisper(ws[1], Join(ws[2..]))
      case "status" => ShowStatus
      case "help" => ShowHelp
      case _ => Unknown
  }

  /**
   * A `start` line written out from its parts parses back to them: the
   * count in decimal, a one-word prefix and a colon-free host with a port.
   */
  lemma StartLineRoundTrip(count: nat, prefix: string, host: string, port: nat)
    requires 1 <= count <= MaxFleetSize
    requires IsWord(prefix) && IsWord(host) && forall i :: 0 <= i < |host| ==> host[i] != ':'
    ensures Parse(Words(Join(["start", Naming.Decimal(count), prefix, host + [':'] + Naming.Decimal(port)])))
         == StartFleet(count, prefix, host, Some(port))
  {
    var d := Naming.Decimal(count);
    var server := host + [':'] + Naming.Decimal(port);
    CountWord(count);
    ServerWord(host, port);
    FourWords("start", d, prefix, server);
    SplitServerRoundTrip(host, port);
    StartParse(["start", d, prefix, server]);
  }

  /** The decimal form of a count is one word, and `parseInt` reads it back. */
  lemma CountWord(count: nat)
    ensures IsWord(Naming.Decimal(count)) && ParseInt(Naming.Decimal(count)) == Some(count)
  {
    var d := Naming.Decimal(count);
    Naming.DecimalShape(count);
    assert forall i :: 0 <= i < |d| ==> Naming.IsDigit(d[i]);
    ParseIntDecimal(count, []);
    var none: string := [];
    assert none + d + none == d;
  }

  /** Four words joined by spaces split back into the four words. */
  lemma FourWords(w0: string, w1: string, w2: string, w3: string)
    requires IsWord(w0) && IsWord(w1) && IsWord(w2) && IsWord(w3)
    ensures Words(Join([w0, w1, w2, w3])) == [w0, w1, w2, w3]
  {
    var ws := [w0, w1, w2, w3];
    assert forall i :: 0 <= i < |ws| ==> IsWord(ws[i]);
    WordsJoin(ws);
  }

  /** `host:port` is one word when the host is. */
  lemma ServerWord(host: string, port: nat)
    requires IsWord(host)
    ensures IsWord(host + [':'] + Naming.Decimal(port))
  {
    var p := Naming.Decimal(port);
    Naming.DecimalShape(port);
    var server := host + [':'] + p;
    forall i | 0 <= i < |server|
      ensures !IsSpace(server[i])
    {
      if i < |host| {
        assert server[i] == host[i];
      } else if i > |host| {
        assert server[i] == p[i - |host| - 1];
      }
    }
  }

  /** A four-word `start` line with a valid count is a fleet start. */
  lemma StartParse(ws: seq<string>)
    requires |ws| == 4 && ws[0] == "start" && ValidCount(ParseInt(ws[1]))
    ensures Parse(ws) == StartFleet(ParseInt(ws[1]).value, ws[2], SplitServer(ws[3]).0, PortOf(SplitServer(ws[3]).1))
  {
    assert Lower(ws[0]) == "start";
  }

  /**
   * A `say` line of three or more words, in any letter case, sends the
   * words after the target, joined by single spaces, to the target, and
   * splitting that message again gives back exactly those words.
   */
  lemma WhisperLineRoundTrip(ws: seq<string>)
    requires |ws| >= 3 && Lower(ws[0]) == "say" && forall i :: 0 <= i < |ws| ==> IsWord(ws[i])
    ensures Parse(Words(Join(ws))) == Whisper(ws[1], Join(ws[2..]))
    ensures Words(Parse(Words(Join(ws))).message) == ws[2..]
  {
    WordsJoin(ws);
    WhisperParse(ws);
    WordsJoinTail(ws);
  }

  /** The words after the target survive joining and splitting again. */
  lemma WordsJoinTail(ws: seq<string>)
    requires |ws| >= 2 && forall i :: 0 <= i < |ws| ==> IsWord(ws[i])
    ensures Words(Join(ws[2..])) == ws[2..]
  {
    var rest := ws[2..];
    assert forall i :: 0 <= i < |rest| ==> IsWord(rest[i]);
    WordsJoin(rest);
  }

  /** A `say` of three or more words is a whisper to the second word. */
  lemma WhisperParse(ws: seq<string>)
    requires |ws| >= 3 && Lower(ws[0]) == "say"
    ensures Parse(ws) == Whisper(ws[1], Join(ws[2..]))
  {
    var c := Parse(ws);
    assert c.Whisper?;
  }

  /** What `handleCommand` did with a line. */
  datatype Reply =
    | Skipped                                   // blank line
    | Exited                                    // `stop` with no service running: the program ends
    | Stopped
    | Rejected                                  // maintenance mode
    | Complained                                // usage error, invalid count or unknown command
    | Displayed                                 // `bots`, `status`, `help`
    | StartRequested(started: bool, batch: StartBatch?)   // `batch`: the creations a start scheduled
    | Kicked(found: bool)
    | Restoring(answer: RestoreReply)
    | Broadcasted(speakers: seq<string>)
    | Whispered(delivered: bool)

  /** Replies after which the fleet and its bots are as they were. */
  predicate Inert(reply: Reply)
  {
    reply in {Skipped, Exited, Rejected, Complained, Displayed, Kicked(false), Restoring(EmptyName), Restoring(NotFound), Whispered(false)}
  }

  /**
   * `handleCommand` (main.js:328-483). `stop` is always obeyed; while in
   * maintenance mode every other command is rejected and changes nothing.
   */
  method HandleCommand(f: Fleet, line: string) returns (reply: Reply)
    requires f.Valid()
    modifies f, f.bots
    ensures f.Valid()
    ensures var c := Parse(Words(line));
            && (c == Blank ==> reply == Skipped)
            && (c == Stop ==> reply == (if old(f.botServiceRunning) then Stopped else Exited))
            && (c !in {Blank, Stop} && old(f.maintenanceMode) ==> reply == Rejected)
    ensures Inert(reply) ==> unchanged(f) && forall b :: b in f.bots ==> unchanged(b)
    ensures reply == Stopped ==>
              && f.CurrentFlags() == Flags(false, false, false, false) && f.bots == []
              && (old(f.bots) != [] ==> f.connectionQueue == [] && f.activeConnections == 0)
              && (old(f.bots) == [] ==>
                    f.connectionQueue == old(f.connectionQueue) && f.activeConnections == old(f.activeConnections))
              && f.pendingCreations == old(f.pendingCreations) && f.pendingRestores == old(f.pendingRestores)
              && f.serverIP == old(f.serverIP) && f.serverPort == old(f.serverPort)
              && forall b :: b in old(f.bots) ==> b.Quitted()
    ensures var c := Parse(Words(line));
            !old(f.maintenanceMode) && c !in {Blank, Stop} ==> Effect(f, old(f.bots), c, reply)
  {
    var c := Parse(Words(line));
    if c == Blank {
      return Skipped;
    }
    if c == Stop {
      if f.botServiceRunning {
        f.StopBots();
        return Stopped;
      }
      return Exited;
    }
    if f.maintenanceMode {
      return Rejected;
    }
    reply := Dispatch(f, c);
  }

  /**
   * The roster, admission queue, counter, flags and pending creations are
   * as they were; the server address and pending restores may differ.
   */
  twostate predicate Kept(f: Fleet)
    reads f
  {
    && f.bots == old(f.bots) && f.connectionQueue == old(f.connectionQueue)
    && f.activeConnections == old(f.activeConnections) && f.CurrentFlags() == old(f.CurrentFlags())
    && f.pendingCreations == old(f.pendingCreations)
  }

  /**
   * What a command other than `stop` does outside maintenance mode, given
   * the roster `bots0` it started from (main.js:351-481):
   * - a usage error, invalid count or unknown word complains, and the
   *   display commands display; neither changes anything;
   * - `start` keeps the server address and, unless a fleet is starting or
   *   running, does everything `startBots` does;
   * - `kick` quits the first bot of that name, if any;
   * - `restore` refuses an empty name, leaves an unknown one alone, and
   *   otherwise quits the first bot of that name and queues its restore;
   * - `say <message>` has every online bot send it, and answers their names;
   * - `say <name> <words…>` has the first bot of that name send the words
   *   if it is online.
   * Every bot of the roster that the command does not name is unchanged.
   */
  twostate predicate Effect(f: Fleet, bots0: seq<Bot>, c: Command, new reply: Reply)
    reads f, bots0, if reply.StartRequested? && reply.batch != null then {reply.batch} else {}
  {
    && (c in {StartUsage, InvalidCount, KickUsage, RestoreUsage, SayUsage, Unknown} ==> reply == Complained)
    && (c in {ListBots, ShowStatus, ShowHelp} ==> reply == Displayed)
    && (!c.StartFleet? ==> f.serverIP == old(f.serverIP) && f.serverPort == old(f.serverPort))
    && (!c.RestoreBot? ==> f.pendingRestores == old(f.pendingRestores))
    && (c.StartFleet? ==>
          && reply.StartRequested?
          && (reply.started <==> !old(f.isStartingBots) && !old(f.botServiceRunning))
          && f.serverIP == c.ip && f.serverPort == c.port
          && (!reply.started ==> Kept(f) && forall b :: b in bots0 ==> unchanged(b))
          && (reply.started ==>
                && reply.batch != null && reply.batch.count == c.count && reply.batch.createdCount == 0
                && f.CurrentFlags() == Flags(true, true, false, true)
                && f.bots == [] && f.connectionQueue == [] && f.activeConnections == 0
                && f.pendingCreations == old(f.pendingCreations) + Schedule(c.prefix, c.count, c.ip, c.port, reply.batch)
                && forall b :: b in bots0 ==> b.Quitted()))
    && (c.KickBot? ==>
          var i := FindByName(bots0, c.name);
          && reply == Kicked(i >= 0)
          && Kept(f)
          && (i >= 0 ==> bots0[i].Quitted())
          && forall b :: b in bots0 && (i < 0 || b != bots0[i]) ==> unchanged(b))
    && (c.RestoreBot? ==>
          var i := FindByName(bots0, c.name);
          && reply.Restoring?
          && (reply.answer == EmptyName <==> c.name == [])
          && (reply.answer == NotFound <==> c.name != [] && i < 0)
          && Kept(f)
          && (reply.answer == Scheduled ==>
                && i >= 0 && bots0[i].Quitted()
                && f.pendingRestores == old(f.pendingRestores) + [bots0[i]])
          && (reply.answer != Scheduled ==> f.pendingRestores == old(f.pendingRestores))
          && forall b :: b in bots0 && (reply.answer != Scheduled || b != bots0[i]) ==> unchanged(b))
    && (c.Broadcast? ==>
          && reply == Broadcasted(old(OnlineNames(bots0)))
          && Kept(f)
          && forall b :: b in bots0 ==> b.Said(c.message))
    && (c.Whisper? ==>
          var i := FindByName(bots0, c.target);
          && reply == Whispered(i >= 0 && old(bots0[i].isOnline))
          && Kept(f)
          && (reply.delivered ==> bots0[i].Said(c.message) && bots0[i].sent == old(bots0[i].sent) + [c.message])
          && forall b :: b in bots0 && (!reply.delivered || b != bots0[i]) ==> unchanged(b))
  }

  /** The commands other than `stop`, outside maintenance mode (main.js:353-481). */
  method Dispatch(f: Fleet, c: Command) returns (reply: Reply)
    requires c != Blank && c != Stop
    requires c.StartFleet? ==> 1 <= c.count <= MaxFleetSize
    requires f.Valid()
    modifies f, f.bots
    ensures f.Valid()
    ensures Inert(reply) ==> unchanged(f) && forall b :: b in f.bots ==> unchanged(b)
    ensures reply != Stopped
    ensures Effect(f, old(f.bots), c, reply)
  {
    match c {
      case StartFleet(_, _, _, _) => reply := StartCommand(f, c);
      case KickBot(_) => reply := KickCommand(f, c);
      case RestoreBot(_) => reply := RestoreCommand(f, c);
      case Broadcast(_) => reply := BroadcastCommand(f, c);
      case Whisper(_, _) => reply := WhisperCommand(f, c);
      case ListBots => reply := Displayed;
      case ShowStatus => reply := Displayed;
      case ShowHelp => reply := Displayed;
      case _ => reply := Complained;
    }
  }

  /** `start <count> <prefix> <server>` (main.js:353-372): keeps the server address, then starts. */
  method StartCommand(f: Fleet, c: Command) returns (reply: Reply)
    requires c.StartFleet? && 1 <= c.count <= MaxFleetSize
    requires f.Valid()
    modifies f, f.bots
    ensures f.Valid()
    ensures Inert(reply) ==> unchanged(f) && forall b :: b in f.bots ==> unchanged(b)
    ensures reply != Stopped
    ensures Effect(f, old(f.bots), c, reply)
  {
    f.serverIP := c.ip;
    f.serverPort := c.port;
    var started, batch := f.StartBots(c.count, c.prefix, f.serverIP, f.serverPort);
    reply := StartRequested(started, batch);
  }

  /** `kick <name>` (main.js:383-398). */
  method KickCommand(f: Fleet, c: Command) returns (reply: Reply)
    requires c.KickBot?
    requires f.Valid()
    modifies f, f.bots
    ensures f.Valid()
    ensures Inert(reply) ==> unchanged(f) && forall b :: b in f.bots ==> unchanged(b)
    ensures reply != Stopped
    ensures Effect(f, old(f.bots), c, reply)
  {
    var found := f.Kick(c.name);
    reply := Kicked(found);
  }

  /** `restore <name>` (main.js:400-426). */
  method RestoreCommand(f: Fleet, c: Command) returns (reply: Reply)
    requires c.RestoreBot?
    requires f.Valid()
    modifies f, f.bots
    ensures f.Valid()
    ensures Inert(reply) ==> unchanged(f) && forall b :: b in f.bots ==> unchanged(b)
    ensures reply != Stopped
    ensures Effect(f, old(f.bots), c, reply)
  {
    var answer := f.RequestRestore(c.name);
    reply := Restoring(answer);
  }

  /** `say <message>` (main.js:434-442). */
  method BroadcastCommand(f: Fleet, c: Command) returns (reply: Reply)
    requires c.Broadcast?
    requires f.Valid()
    modifies f, f.bots
    ensures f.Valid()
    ensures Inert(reply) ==> unchanged(f) && forall b :: b in f.bots ==> unchanged(b)
    ensures reply != Stopped
    ensures Effect(f, old(f.bots), c, reply)
  {
    var speakers := f.SayAll(c.message);
    reply := Broadcasted(speakers);
  }

  /** `say <name> <message>` (main.js:443-454). */
  method WhisperCommand(f: Fleet, c: Command) returns (reply: Reply)
    requires c.Whisper?
    requires f.Valid()
    modifies f, f.bots
    ensures f.Valid()
    ensures Inert(reply) ==> unchanged(f) && forall b :: b in f.bots ==> unchanged(b)
    ensures reply != Stopped
    ensures Effect(f, old(f.bots), c, reply)
  {
    var delivered := f.SayTo(c.target, c.message);
    reply := Whispered(delivered);
  }
}
