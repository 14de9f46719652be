/** The renderer's runner for `ddev` commands (`ddevShell`) and the wrappers
    built on it: `list`, `describe`, `describeModal`, `remove`, `config`,
    `start`/`stop`/`restart`, the `hostname` command line and the `sudo` gate.

    The child process is not modelled: what it writes is a sequence of
    chunks and how it ends is an exit code, `None` when Node reports `null`
    (the process was killed by a signal). `JSON.parse` is an oracle `parse`
    from a line to `Some` parsed value, or `None` when it throws. */
module DdevShell {
  import opened Common
  import opened Strings

  // ----- argv and working directory -----

  /** The `command` argument: one word, or already an array of words. */
  datatype Command = Word(word: string) | Words(words: seq<string>)

  function CommandWords(command: Command): seq<string>
  {
    match command
    case Word(w) => [w]
    case Words(ws) => ws
  }

  /** The argument vector handed to the `ddev` executable. `args` is
      `Some` only when it is an array; anything else is ignored. */
  function Argv(command: Command, args: Option<seq<string>>): (argv: seq<string>)
    ensures |CommandWords(command)| <= |argv|
    ensures argv[..|CommandWords(command)|] == CommandWords(command)
    ensures argv[|CommandWords(command)|..] == if args.Some? then args.value else []
  {
    if args.Some? then CommandWords(command) + args.value else CommandWords(command)
  }

  /** `path.replace('~', homedir)`. */
  function ExpandHome(path: string, home: string): (expanded: string)
    ensures '~' !in path ==> expanded == path
    ensures '~' in path ==> |expanded| == |path| - 1 + |home|
  {
    ContainsChar(path, '~');
    ReplaceFirst(path, "~", home)
  }

  /** Only the first `~` of a path becomes the home directory. */
  lemma ExpandFirstTilde(before: string, after: string, home: string)
    requires '~' !in before
    ensures ExpandHome(before + "~" + after, home) == before + home + after
  {
    ReplaceFirstChar(before, '~', after, home);
  }

  /** A path without `~` is used as it is. */
  lemma ExpandNoTilde(path: string, home: string)
    requires '~' !in path
    ensures ExpandHome(path, home) == path
  {
    ReplaceAbsentChar(path, '~', home);
  }

  /** The `cwd` spawn option. `null` and `''` are both falsy and both
      written `""` here: no option is set for them. */
  function WorkingDirectory(path: string, home: string): (cwd: Option<string>)
    ensures cwd.Some? <==> path != ""
    ensures cwd.Some? ==> cwd.value == ExpandHome(path, home)
  {
    if path != "" then Some(ExpandHome(path, home)) else None
  }

  // ----- what the runner delivers -----

  /** A call of `callback` or of `errorCallback`, with its argument. */
  datatype Delivery = Callback(text: string) | ErrorCallback(text: string)

  const ExitedMessage: string := "Process Exited With Code 0"

  /** The exit handler: any exit other than 0 hands the whole output to
      `errorCallback`; a clean exit announces itself in stream mode and
      hands over the whole output otherwise. */
  function ExitDelivery(code: Option<int>, stream: bool, buffer: string): Delivery
  {
    if code != Some(0) then ErrorCallback(buffer)
    else if stream then Callback(ExitedMessage)
    else Callback(buffer)
  }

  /** In stream mode every chunk is echoed to `callback` as it arrives. */
  function ChunkDeliveries(chunks: seq<string>, stream: bool): seq<Delivery>
  {
    if stream then seq(|chunks|, i requires 0 <= i < |chunks| => Callback(chunks[i])) else []
  }

  /** Everything one run delivers, in order. */
  function Transcript(chunks: seq<string>, code: Option<int>, stream: bool): seq<Delivery>
  {
    ChunkDeliveries(chunks, stream) + [ExitDelivery(code, stream, Concat(chunks))]
  }

  /** The arguments of the `callback` calls (`errors` false) or of the
      `errorCallback` calls (`errors` true), in order. */
  function Delivered(ds: seq<Delivery>, errors: bool): seq<string>
  {
    if ds == [] then []
    else (if ds[0].ErrorCallback? == errors then [ds[0].text] else []) + Delivered(ds[1..], errors)
  }

  lemma {:induction false} DeliveredAppend(a: seq<Delivery>, b: seq<Delivery>, errors: bool)
    ensures Delivered(a + b, errors) == Delivered(a, errors) + Delivered(b, errors)
    decreases |a|
  {
    if a == [] {
      assert a + b == b;
    } else {
      assert (a + b)[0] == a[0];
      assert (a + b)[1..] == a[1..] + b;
      DeliveredAppend(a[1..], b, errors);
    }
  }

  lemma {:induction false} EchoedChunks(chunks: seq<string>)
    ensures Delivered(ChunkDeliveries(chunks, true), false) == chunks
    ensures Delivered(ChunkDeliveries(chunks, true), true) == []
    decreases |chunks|
  {
    if chunks != [] {
      assert ChunkDeliveries(chunks, true)[1..] == ChunkDeliveries(chunks[1..], true);
      EchoedChunks(chunks[1..]);
    }
  }

  /** Stream mode: `callback` sees every chunk exactly once and in order,
      then the exit message after a clean exit; `errorCallback` is called
      once, with all the output, after any other exit. */
  lemma StreamDeliveries(chunks: seq<string>, code: Option<int>)
    ensures Delivered(Transcript(chunks, code, true), false) ==
            chunks + (if code == Some(0) then [ExitedMessage] else [])
    ensures Delivered(Transcript(chunks, code, true), true) ==
            (if code == Some(0) then [] else [Concat(chunks)])
  {
    var d := ExitDelivery(code, true, Concat(chunks));
    DeliveredAppend(ChunkDeliveries(chunks, true), [d], false);
    DeliveredAppend(ChunkDeliveries(chunks, true), [d], true);
    EchoedChunks(chunks);
  }

  /** Batch mode: exactly one call, carrying the whole output, to `callback`
      after a clean exit and to `errorCallback` otherwise. */
  lemma BatchDelivery(chunks: seq<string>, code: Option<int>)
    ensures Transcript(chunks, code, false) ==
            [if code == Some(0) then Callback(Concat(chunks)) else ErrorCallback(Concat(chunks))]
  {
  }

  /** One process started by `ddevShell`: its spawn arguments, the output
      buffer and the calls made so far to the two callbacks. */
  class ShellProcess {
    const argv: seq<string>
    const cwd: Option<string>
    const stream: bool
    var outputBuffer: string
    var delivered: seq<Delivery>

    constructor (command: Command, args: Option<seq<string>>, path: string, home: string, stream: bool)
      ensures argv == Argv(command, args) && cwd == WorkingDirectory(path, home)
      ensures this.stream == stream
      ensures outputBuffer == "" && delivered == []
    {
      argv := Argv(command, args);
      cwd := WorkingDirectory(path, home);
      this.stream := stream;
      outputBuffer := "";
      delivered := [];
    }

    /** `appendBuffer`, for a chunk from stdout or from stderr. */
    method OnData(chunk: string)
      modifies this
      ensures outputBuffer == old(outputBuffer) + chunk
      ensures delivered == old(delivered) + (if stream then [Callback(chunk)] else [])
    {
      outputBuffer := outputBuffer + chunk;
      if stream {
        delivered := delivered + [Callback(chunk)];
      }
    }

    /** The `exit` handler. */
    method OnExit(code: Option<int>)
      modifies this
      ensures outputBuffer == old(outputBuffer)
      ensures delivered == old(delivered) + [ExitDelivery(code, stream, outputBuffer)]
    {
      delivered := delivered + [ExitDelivery(code, stream, outputBuffer)];
    }

    /** A whole run: the chunks in arrival order, then the exit. The buffer
        ends as their concatenation and the deliveries are the transcript. */
    method Drive(chunks: seq<string>, code: Option<int>)
      requires outputBuffer == "" && delivered == []
      modifies this
      ensures outputBuffer == Concat(chunks)
      ensures delivered == Transcript(chunks, code, stream)
    {
      var i := 0;
      while i < |chunks|
        invariant 0 <= i <= |chunks|
        invariant outputBuffer == Concat(chunks[..i])
        invariant delivered == ChunkDeliveries(chunks[..i], stream)
      {
        assert chunks[..i + 1][..i] == chunks[..i];
        OnData(chunks[i]);
        assert ChunkDeliveries(chunks[..i + 1], stream) ==
               ChunkDeliveries(chunks[..i], stream) + (if stream then [Callback(chunks[i])] else []);
        i := i + 1;
      }
      assert chunks[..i] == chunks;
      OnExit(code);
    }
  }

  /** The promise of a wrapper that passes its `resolve` as `callback` and
      its `reject` as `errorCallback`. */
  function Promised(ds: seq<Delivery>): Settlement<string, string>
  {
    FirstSettled(seq(|ds|, i requires 0 <= i < |ds| =>
      if ds[i].Callback? then Resolved(ds[i].text) else Rejected(ds[i].text)))
  }

  /** A stream-mode promise (as `start` is used by the site creator)
      settles with the first chunk, or with how the process ended when it
      wrote nothing. */
  lemma StreamPromise(chunks: seq<string>, code: Option<int>)
    ensures Promised(Transcript(chunks, code, true)) ==
            if chunks != [] then Resolved(chunks[0])
            else if code == Some(0) then Resolved(ExitedMessage)
            else Rejected("")
  {
    var ds := Transcript(chunks, code, true);
    var vs := seq(|ds|, i requires 0 <= i < |ds| =>
      if ds[i].Callback? then Resolved(ds[i].text) else Rejected(ds[i].text));
    assert ds[0] == if chunks != [] then Callback(chunks[0]) else ExitDelivery(code, true, Concat(chunks));
    FirstSettledIsFirst(vs, 0);
  }

  /** A batch-mode promise (as `remove` is used) settles with the whole output. */
  lemma BatchPromise(chunks: seq<string>, code: Option<int>)
    ensures Promised(Transcript(chunks, code, false)) ==
            if code == Some(0) then Resolved(Concat(chunks)) else Rejected(Concat(chunks))
  {
    BatchDelivery(chunks, code);
  }

  // ----- parsed output -----

  /** One site as `ddev list -j` reports it: the members the client reads,
      and the remaining members (URLs, app root, type) in serialised form,
      so that comparing two sites compares all of their members. */
  datatype Site = Site(name: string, status: string, routerStatus: Option<string>, others: string)

  /** The `raw` member of a parsed line, by how the wrappers treat it. */
  datatype Raw =
    | RawNullish                 // absent or `null`
    | RawFalsy                   // `false`, `0`, `''`
    | RawArray(sites: seq<Site>)
    | RawObject(details: Details)
    | RawScalar                  // `true`, a non-zero number, a non-empty string

  /** The members `describeModal` reads; an empty URL stands for a falsy one. */
  datatype Details = Details(dbinfo: Option<map<string, string>>, mailhogUrl: string, phpmyadminUrl: string)

  /** A parsed line. `level` is `""` when absent. */
  datatype Json =
    | JNull                            // reading `.level` of `null` throws
    | JObject(level: string, raw: Raw)
    | JOther                           // a number, string, boolean or array: `.level` is undefined

  /** What a wrapper rejects with: a text, or the empty object `{}`. */
  datatype Reason = Output(text: string) | EmptyObject

  function LineVerdicts<T>(lines: seq<string>, verdict: string -> Settlement<T, Reason>): seq<Settlement<T, Reason>>
  {
    seq(|lines|, i requires 0 <= i < |lines| => verdict(lines[i]))
  }

  /** The `forEach` over the lines of the output: each line's handler may
      resolve or reject the promise, and the first one to do so decides. */
  method SettleLines<T>(output: string, verdict: string -> Settlement<T, Reason>) returns (p: Settlement<T, Reason>)
    ensures p == FirstSettled(LineVerdicts(SplitOn(output, "\n"), verdict))
  {
    var lines := SplitOn(output, "\n");
    p := Pending;
    var i := 0;
    while i < |lines|
      invariant 0 <= i <= |lines|
      invariant p == FirstSettled(LineVerdicts(lines[..i], verdict))
    {
      assert LineVerdicts(lines[..i + 1], verdict) == LineVerdicts(lines[..i], verdict) + [verdict(lines[i])];
      FirstSettledSnoc(LineVerdicts(lines[..i], verdict), verdict(lines[i]));
      p := Settle(p, verdict(lines[i]));
      i := i + 1;
    }
    assert lines[..i] == lines;
  }

  /** A batch-mode wrapper's promise: the output is read line by line after
      a clean exit, and rejected as a whole after any other exit. */
  function CommandOutcome<T>(output: string, code: Option<int>, verdict: string -> Settlement<T, Reason>): (p: Settlement<T, Reason>)
    ensures code != Some(0) ==> p == Rejected(Output(output))
    ensures code == Some(0) ==>
              (p.Pending? <==> forall line :: line in SplitOn(output, "\n") ==> verdict(line).Pending?)
    ensures code == Some(0) && !p.Pending? ==> exists line :: line in SplitOn(output, "\n") && p == verdict(line)
  {
    match ExitDelivery(code, false, output)
    case Callback(text) =>
      var lines := SplitOn(text, "\n");
      var vs := LineVerdicts(lines, verdict);
      assert forall k :: 0 <= k < |vs| ==> vs[k] == verdict(lines[k]);
      FirstSettled(vs)
    case ErrorCallback(text) => Rejected(Output(text))
  }

  // ----- list -----

  /** `getRaw` on one line of `ddev list -j` output. */
  function ListLine(line: string, parse: string -> Option<Json>): (p: Settlement<seq<Site>, Reason>)
    ensures p.Pending? <==>
      line == "" || (parse(line).Some? && (parse(line).value.JOther? ||
                     (parse(line).value.JObject? && parse(line).value.level != "info")))
    ensures p.Rejected? ==> p.reason == Output(line)
    ensures p.Resolved? <==>
              (line != "" && parse(line).Some? && parse(line).value.JObject? && parse(line).value.level == "info" &&
               (parse(line).value.raw.RawNullish? || parse(line).value.raw.RawFalsy? || parse(line).value.raw.RawArray?))
    ensures p.Resolved? ==> p.value == if parse(line).value.raw.RawArray? then parse(line).value.raw.sites else []
  {
    if line == "" then Pending
    else match parse(line)
      case None => Rejected(Output(line))
      case Some(JNull) => Rejected(Output(line))
      case Some(JOther) => Pending
      case Some(JObject(level, raw)) =>
        if level != "info" then Pending
        else match raw
          case RawNullish => Resolved([])
          case RawFalsy => Resolved([])
          case RawArray(sites) => Resolved(sites)
          case _ => Rejected(Output(line))
  }

  /** `ddev list -j` through `list`. */
  function ListOutcome(output: string, code: Option<int>, parse: string -> Option<Json>): Settlement<seq<Site>, Reason>
  {
    CommandOutcome(output, code, line => ListLine(line, parse))
  }

  /** After a clean exit, `list` settles as the first line that is not skipped. */
  lemma ListSettledByFirstDecisiveLine(output: string, parse: string -> Option<Json>, k: int)
    requires 0 <= k < |SplitOn(output, "\n")|
    requires !ListLine(SplitOn(output, "\n")[k], parse).Pending?
    requires forall j :: 0 <= j < k ==> ListLine(SplitOn(output, "\n")[j], parse).Pending?
    ensures ListOutcome(output, Some(0), parse) == ListLine(SplitOn(output, "\n")[k], parse)
  {
    var vs := LineVerdicts(SplitOn(output, "\n"), line => ListLine(line, parse));
    FirstSettledIsFirst(vs, k);
  }

  /** Lines after the one that settled `list` cannot change the outcome. */
  lemma ListIgnoresLaterLines(lines: seq<string>, parse: string -> Option<Json>, k: int)
    requires 0 <= k <= |lines|
    requires !FirstSettled(LineVerdicts(lines[..k], line => ListLine(line, parse))).Pending?
    ensures FirstSettled(LineVerdicts(lines, line => ListLine(line, parse))) ==
            FirstSettled(LineVerdicts(lines[..k], line => ListLine(line, parse)))
  {
    var verdict := line => ListLine(line, parse);
    assert LineVerdicts(lines, verdict) == LineVerdicts(lines[..k], verdict) + LineVerdicts(lines[k..], verdict);
    FirstSettledAppend(LineVerdicts(lines[..k], verdict), LineVerdicts(lines[k..], verdict));
  }

  /** An exit other than 0 rejects `list` with the whole output. */
  lemma ListFailedExit(output: string, code: Option<int>, parse: string -> Option<Json>)
    requires code != Some(0)
    ensures ListOutcome(output, code, parse) == Rejected(Output(output))
  {
  }

  // ----- describe and describeModal -----

  /** `describe` on one line: an `info` line resolves with its `raw`; an
      unparseable or `null` line rejects with `{}`. */
  function DescribeLine(line: string, parse: string -> Option<Json>): (p: Settlement<Raw, Reason>)
    ensures p.Rejected? <==> line != "" && (parse(line).None? || parse(line) == Some(JNull))
    ensures p.Rejected? ==> p.reason == EmptyObject
    ensures p.Resolved? <==> (line != "" && parse(line).Some? && parse(line).value.JObject? &&
                              parse(line).value.level == "info")
    ensures p.Resolved? ==> p.value == parse(line).value.raw
  {
    if line == "" then Pending
    else match parse(line)
      case None => Rejected(EmptyObject)
      case Some(JNull) => Rejected(EmptyObject)
      case Some(JOther) => Pending
      case Some(JObject(level, raw)) => if level == "info" then Resolved(raw) else Pending
  }

  function DescribeOutcome(output: string, code: Option<int>, parse: string -> Option<Json>): Settlement<Raw, Reason>
  {
    CommandOutcome(output, code, line => DescribeLine(line, parse))
  }

  /** A section of the details modal. */
  datatype Section = Credentials(entries: map<string, string>) | Services(links: map<string, string>)

  /** The link the modal shows for a service URL. */
  function OpenSiteLink(url: string): string
  {
    "<a class='open-site' data-url='" + url + "' href=\"#\">" + url + "</a>"
  }

  const CredentialsKey: string := "MySQL Credentials"
  const ServicesKey: string := "Other Services"

  /** The modal's sections, built only from the members that are present. */
  function ModalData(d: Details): (m: map<string, Section>)
    ensures m.Keys <= {CredentialsKey, ServicesKey}
    ensures CredentialsKey in m <==> d.dbinfo.Some?
    ensures CredentialsKey in m ==> m[CredentialsKey] == Credentials(d.dbinfo.value)
    ensures ServicesKey in m <==> d.mailhogUrl != "" || d.phpmyadminUrl != ""
    ensures ServicesKey in m ==> m[ServicesKey].Services?
    ensures ServicesKey in m ==> m[ServicesKey].links.Keys <= {"MailHog", "phpMyAdmin"}
    ensures ServicesKey in m ==> ("MailHog" in m[ServicesKey].links <==> d.mailhogUrl != "")
    ensures ServicesKey in m ==> ("phpMyAdmin" in m[ServicesKey].links <==> d.phpmyadminUrl != "")
    ensures ServicesKey in m && "MailHog" in m[ServicesKey].links ==>
              m[ServicesKey].links["MailHog"] == OpenSiteLink(d.mailhogUrl)
    ensures ServicesKey in m && "phpMyAdmin" in m[ServicesKey].links ==>
              m[ServicesKey].links["phpMyAdmin"] == OpenSiteLink(d.phpmyadminUrl)
  {
    var credentials: map<string, Section> :=
      if d.dbinfo.Some? then map[CredentialsKey := Credentials(d.dbinfo.value)] else map[];
    var mailhog: map<string, string> :=
      if d.mailhogUrl != "" then map["MailHog" := OpenSiteLink(d.mailhogUrl)] else map[];
    var links: map<string, string> :=
      if d.phpmyadminUrl != "" then mailhog["phpMyAdmin" := OpenSiteLink(d.phpmyadminUrl)] else mailhog;
    if d.mailhogUrl != "" || d.phpmyadminUrl != "" then credentials[ServicesKey := Services(links)]
    else credentials
  }

  /** `describeModal` on one line. Reading the members of a `null` or absent
      `raw` throws, which rejects with `{}`; any other `raw` that is not an
      object has no such members and yields an empty modal. */
  function ModalLine(line: string, parse: string -> Option<Json>): (p: Settlement<map<string, Section>, Reason>)
    ensures p.Rejected? ==> p.reason == EmptyObject
    ensures p.Resolved? <==> (line != "" && parse(line).Some? && parse(line).value.JObject? &&
                              parse(line).value.level == "info" && !parse(line).value.raw.RawNullish?)
    ensures p.Resolved? ==>
              p.value == if parse(line).value.raw.RawObject? then ModalData(parse(line).value.raw.details) else map[]
  {
    if line == "" then Pending
    else match parse(line)
      case None => Rejected(EmptyObject)
      case Some(JNull) => Rejected(EmptyObject)
      case Some(JOther) => Pending
      case Some(JObject(level, raw)) =>
        if level != "info" then Pending
        else match raw
          case RawNullish => Rejected(EmptyObject)
          case RawObject(d) => Resolved(ModalData(d))
          case _ => Resolved(map[])
  }

  function ModalOutcome(output: string, code: Option<int>, parse: string -> Option<Json>): Settlement<map<string, Section>, Reason>
  {
    CommandOutcome(output, code, line => ModalLine(line, parse))
  }

  /** `describe` and `describeModal` agree on which lines settle them and
      on whether they resolve, except that a `null` or absent `raw`
      resolves `describe` and rejects `describeModal`. */
  lemma ModalFollowsDescribe(line: string, parse: string -> Option<Json>)
    ensures ModalLine(line, parse).Pending? <==> DescribeLine(line, parse).Pending?
    ensures ModalLine(line, parse).Resolved? <==>
            DescribeLine(line, parse).Resolved? && !DescribeLine(line, parse).value.RawNullish?
  {
  }

  // ----- argument builders -----

  /** The arguments of `ddev remove`. */
  function RemoveArgs(name: string, removeData: bool): (args: seq<string>)
    ensures |args| == if removeData then 3 else 2
    ensures args[0] == "-j" && args[|args| - 1] == name
    ensures removeData ==> args[1] == "--remove-data"
  {
    (if removeData then ["-j", "--remove-data"] else ["-j"]) + [name]
  }

  /** `remove` runs in batch mode with no working directory. */
  lemma RemoveInvocation(name: string, removeData: bool, home: string)
    ensures Argv(Word("remove"), Some(RemoveArgs(name, removeData))) ==
            if removeData then ["remove", "-j", "--remove-data", name] else ["remove", "-j", name]
    ensures WorkingDirectory("", home).None?
  {
  }

  /** The arguments of `ddev config` as `config` passes them. */
  function ConfigArgs(name: string, docroot: string): (args: seq<string>)
    ensures |args| == 5 && args[0] == "-j"
    ensures args[1] == "--sitename" && args[2] == name
    ensures args[3] == "--docroot" && args[4] == docroot
  {
    ["-j", "--sitename", name, "--docroot", docroot]
  }

  /** `start`, `stop` and `restart` run the bare subcommand in the project's
      directory. */
  lemma LifecycleInvocation(sub: string, path: string, home: string)
    requires sub in ["start", "stop", "restart"]
    ensures Argv(Word(sub), None) == [sub]
    ensures path != "" ==> WorkingDirectory(path, home) == Some(ExpandHome(path, home))
  {
  }

  const DefaultDomain: string := "ddev.local"

  /** The command line `hostname` hands to the privilege prompt. */
  function HostnameCommand(siteName: string, domain: string): (command: string)
    ensures |command| >= 27
    ensures command[..14] == "ddev hostname " && command[|command| - 13..] == " 127.0.0.1 -j"
    ensures command[14..|command| - 13] == siteName + "." + domain
  {
    "ddev hostname " + siteName + "." + domain + " 127.0.0.1 -j"
  }

  /** For names without spaces the command line has exactly five words, the
      third being the host name. */
  lemma HostnameCommandWords(siteName: string, domain: string)
    requires ' ' !in siteName && ' ' !in domain
    ensures SplitOn(HostnameCommand(siteName, domain), " ") ==
            ["ddev", "hostname", siteName + "." + domain, "127.0.0.1", "-j"]
  {
    var host := siteName + "." + domain;
    assert ' ' !in host by {
      forall i | 0 <= i < |host| ensures host[i] != ' ' {
        if i < |siteName| { assert host[i] == siteName[i]; }
        else if i > |siteName| { assert host[i] == domain[i - |siteName| - 1]; }
      }
    }
    HostnameCommandShape(siteName, domain);
    assert ' ' !in "ddev" && ' ' !in "hostname" && ' ' !in "127.0.0.1" && ' ' !in "-j";
    SplitFiveWords("ddev", "hostname", host, "127.0.0.1", "-j");
  }

  lemma HostnameCommandShape(siteName: string, domain: string)
    ensures HostnameCommand(siteName, domain) ==
            "ddev" + " " + ("hostname" + " " + (siteName + "." + domain + " " + ("127.0.0.1" + " " + "-j")))
  {
    assert " 127.0.0.1 -j" == " " + ("127.0.0.1" + " " + "-j");
    assert "ddev hostname " == "ddev" + " " + "hostname" + " ";
  }

  lemma SplitFiveWords(a: string, b: string, c: string, d: string, e: string)
    requires ' ' !in a && ' ' !in b && ' ' !in c && ' ' !in d && ' ' !in e
    ensures SplitOn(a + " " + (b + " " + (c + " " + (d + " " + e))), " ") == [a, b, c, d, e]
  {
    SplitFourWords(b, c, d, e);
    SplitWord(a, b + " " + (c + " " + (d + " " + e)));
  }

  lemma SplitFourWords(b: string, c: string, d: string, e: string)
    requires ' ' !in b && ' ' !in c && ' ' !in d && ' ' !in e
    ensures SplitOn(b + " " + (c + " " + (d + " " + e)), " ") == [b, c, d, e]
  {
    SplitThreeWords(c, d, e);
    SplitWord(b, c + " " + (d + " " + e));
  }

  lemma SplitThreeWords(c: string, d: string, e: string)
    requires ' ' !in c && ' ' !in d && ' ' !in e
    ensures SplitOn(c + " " + (d + " " + e), " ") == [c, d, e]
  {
    SplitNoSeparator(e, ' ');
    SplitWord(d, e);
    SplitWord(c, d + " " + e);
  }

  lemma SplitWord(w: string, rest: string)
    requires ' ' !in w
    ensures SplitOn(w + " " + rest, " ") == [w] + SplitOn(rest, " ")
  {
    SplitAtFirst(w, ' ', rest);
  }

  // ----- privilege escalation -----

  const SudoAllowList: seq<string> := ["version"]

  /** Whether `sudo` calls the escalation prompt, and with what. */
  datatype SudoDecision = Escalate(commandLine: string) | Refuse(error: JsError)

  /** The allow-list gate of `sudo`. */
  function SudoGate(command: string): (d: SudoDecision)
    ensures d.Escalate? <==> command == "version"
    ensures d.Escalate? ==> d.commandLine == "ddev version"
    ensures d.Refuse? ==> d.error == ErrorObject("ddev " + command + " is not allowed to be run as sudo")
  {
    if command in SudoAllowList then Escalate("ddev " + command)
    else Refuse(ErrorObject("ddev " + command + " is not allowed to be run as sudo"))
  }

  /** The promise `sudo` returns; `prompt` is the escalation prompt's
      outcome for the command line it is given. */
  function SudoOutcome(command: string, prompt: string -> Result<string>): (p: Settlement<string, JsError>)
    ensures command != "version" ==> p == Rejected(ErrorObject("ddev " + command + " is not allowed to be run as sudo"))
    ensures command == "version" ==>
      p == if prompt("ddev version").Ok? then Resolved(prompt("ddev version").value)
           else Rejected(ErrorObject("Unable to escalate permissions."))
  {
    match SudoGate(command)
    case Refuse(e) => Rejected(e)
    case Escalate(line) =>
      match prompt(line)
      case Ok(out) => Resolved(out)
      case Err(_) => Rejected(ErrorObject("Unable to escalate permissions."))
  }

  /** A command holding `;`, `|` or `&` never reaches the prompt. */
  lemma BannedCharacterRefused(command: string)
    requires ';' in command || '|' in command || '&' in command
    ensures SudoGate(command).Refuse?
  {
    assert command != "version";
  }
}
