/** The socket server's reading of `ddev list` text output
    (`parseListLines`) and its `ddev` spawn helper.

    `parseListLines` runs once per stdout chunk: a chunk is classified as
    the router status, the site count or the site table, in that order. A
    table is cut into fields at every run of whitespace that is two or more
    characters long and at every remaining newline, and the fields are
    grouped five at a time, left to right, whatever the rows looked like. */
module SocketList {
  import opened Common
  import opened Strings
  import DdevShell

  /** `\s` in a JavaScript regular expression. */
  predicate IsJsWhitespace(c: char)
  {
    c == '\t' || c == '\n' || c == '\U{000B}' || c == '\U{000C}' || c == '\r' || c == ' ' ||
    c == '\U{00A0}' || c == '\U{1680}' || ('\U{2000}' <= c <= '\U{200A}') ||
    c == '\U{2028}' || c == '\U{2029}' || c == '\U{202F}' || c == '\U{205F}' ||
    c == '\U{3000}' || c == '\U{FEFF}'
  }

  /** The field separator the parser writes and then splits on. */
  const Marker: string := "!~!"

  /** No two whitespace characters stand next to each other. */
  predicate NoWhitespaceRun(s: string)
  {
    forall i :: 0 <= i < |s| - 1 ==> !(IsJsWhitespace(s[i]) && IsJsWhitespace(s[i + 1]))
  }

  /** The text after its leading whitespace. */
  function DropWhitespace(s: string): (r: string)
    ensures |r| <= |s| && r == s[|s| - |r|..]
    ensures r == [] || !IsJsWhitespace(r[0])
    decreases |s|
  {
    if s != [] && IsJsWhitespace(s[0]) then DropWhitespace(s[1..]) else s
  }

  /** `replace(/\s\s+/g, '!~!')`: each maximal run of two or more
      whitespace characters becomes one marker; single ones stay. */
  function Collapse(s: string): string
    decreases |s|
  {
    if s == [] then []
    else if |s| >= 2 && IsJsWhitespace(s[0]) && IsJsWhitespace(s[1]) then
      Marker + Collapse(DropWhitespace(s))
    else [s[0]] + Collapse(s[1..])
  }

  /** What a collapsed text starts with. */
  lemma CollapseHead(s: string)
    requires s != []
    ensures Collapse(s) != []
    ensures !IsJsWhitespace(s[0]) ==> Collapse(s)[0] == s[0]
    ensures IsJsWhitespace(Collapse(s)[0]) ==> IsJsWhitespace(s[0]) && (|s| == 1 || !IsJsWhitespace(s[1]))
  {
  }

  /** After collapsing, no whitespace run of two or more is left. */
  lemma {:induction false} CollapseLeavesNoRun(s: string)
    ensures NoWhitespaceRun(Collapse(s))
    decreases |s|
  {
    if s == [] {
    } else if |s| >= 2 && IsJsWhitespace(s[0]) && IsJsWhitespace(s[1]) {
      var t := DropWhitespace(s);
      CollapseLeavesNoRun(t);
      var r := Collapse(t);
      forall i | 0 <= i < |Marker + r| - 1
        ensures !(IsJsWhitespace((Marker + r)[i]) && IsJsWhitespace((Marker + r)[i + 1]))
      {
        if i >= |Marker| { assert (Marker + r)[i] == r[i - |Marker|]; assert (Marker + r)[i + 1] == r[i + 1 - |Marker|]; }
      }
    } else {
      CollapseLeavesNoRun(s[1..]);
      var r := Collapse(s[1..]);
      if r != [] {
        CollapseHead(s[1..]);
      }
      forall i | 0 <= i < |[s[0]] + r| - 1
        ensures !(IsJsWhitespace(([s[0]] + r)[i]) && IsJsWhitespace(([s[0]] + r)[i + 1]))
      {
        if i >= 1 { assert ([s[0]] + r)[i] == r[i - 1]; assert ([s[0]] + r)[i + 1] == r[i]; }
      }
    }
  }

  /** A text without whitespace runs is left as it is. */
  lemma {:induction false} CollapseWithoutRun(s: string)
    requires NoWhitespaceRun(s)
    ensures Collapse(s) == s
    decreases |s|
  {
    if s != [] {
      assert !(|s| >= 2 && IsJsWhitespace(s[0]) && IsJsWhitespace(s[1]));
      assert NoWhitespaceRun(s[1..]) by {
        forall i | 0 <= i < |s[1..]| - 1
          ensures !(IsJsWhitespace(s[1..][i]) && IsJsWhitespace(s[1..][i + 1]))
        {
          assert s[1..][i] == s[i + 1] && s[1..][i + 1] == s[i + 2];
        }
      }
      CollapseWithoutRun(s[1..]);
    }
  }

  /** Collapsing twice is collapsing once. */
  lemma CollapseIdempotent(s: string)
    ensures Collapse(Collapse(s)) == Collapse(s)
  {
    CollapseLeavesNoRun(s);
    CollapseWithoutRun(Collapse(s));
  }

  /** `replace(/\n/g, '!~!')`. */
  function ReplaceNewlines(s: string): (r: string)
    ensures '\n' !in r
    ensures '\n' !in s ==> r == s
  {
    if s == [] then []
    else (if s[0] == '\n' then Marker else [s[0]]) + ReplaceNewlines(s[1..])
  }

  /** The chunk as the parser rewrites it before looking for the table. */
  function Normalize(line: string): string
  {
    ReplaceNewlines(Collapse(line))
  }

  /** `newline.split('!~!')`. */
  function Fields(line: string): seq<string>
  {
    SplitOn(Normalize(line), Marker)
  }

  const RowSize: nat := 5

  /** Repeated `splice(0, 5)`: consecutive groups of five, left to right;
      only the last may be shorter, and none is empty. */
  function Groups(fields: seq<string>): (gs: seq<seq<string>>)
    ensures forall i :: 0 <= i < |gs| ==> 0 < |gs[i]| <= RowSize
    ensures forall i :: 0 <= i < |gs| - 1 ==> |gs[i]| == RowSize
    decreases |fields|
  {
    if fields == [] then []
    else
      var n := if |fields| < RowSize then |fields| else RowSize;
      [fields[..n]] + Groups(fields[n..])
  }

  function Flatten(gs: seq<seq<string>>): seq<string>
  {
    if gs == [] then [] else gs[0] + Flatten(gs[1..])
  }

  lemma GroupsStep(fields: seq<string>)
    requires fields != []
    ensures Groups(fields) == if |fields| < RowSize then [fields[..|fields|]] + Groups(fields[|fields|..])
                              else [fields[..RowSize]] + Groups(fields[RowSize..])
  {
  }

  /** Grouping loses and reorders nothing. */
  lemma {:induction false} GroupsFlatten(fields: seq<string>)
    ensures Flatten(Groups(fields)) == fields
    decreases |fields|
  {
    if fields != [] {
      var n := if |fields| < RowSize then |fields| else RowSize;
      GroupsFlatten(fields[n..]);
      assert Groups(fields)[1..] == Groups(fields[n..]);
      assert fields == fields[..n] + fields[n..];
    }
  }

  /** The test a group must pass to be emitted as a row. */
  predicate IsSiteRow(g: seq<string>)
  {
    |g| == RowSize && !Contains(g[0], "NAME")
  }

  /** The rows the `for` loop keeps, in order. */
  function KeepRows(gs: seq<seq<string>>): (rows: seq<seq<string>>)
    ensures |rows| <= |gs|
    ensures forall k :: 0 <= k < |rows| ==> IsSiteRow(rows[k])
  {
    if gs == [] then []
    else (if IsSiteRow(gs[0]) then [gs[0]] else []) + KeepRows(gs[1..])
  }

  /** A group is emitted exactly when it passes the row test. */
  lemma {:induction false} KeepRowsMembers(gs: seq<seq<string>>, g: seq<string>)
    ensures g in KeepRows(gs) <==> g in gs && IsSiteRow(g)
    decreases |gs|
  {
    if gs != [] {
      KeepRowsMembers(gs[1..], g);
      assert gs == [gs[0]] + gs[1..];
    }
  }

  /** Filtering works group by group, so rows keep the order of the groups. */
  lemma {:induction false} KeepRowsAppend(a: seq<seq<string>>, b: seq<seq<string>>)
    ensures KeepRows(a + b) == KeepRows(a) + KeepRows(b)
    decreases |a|
  {
    if a == [] {
      assert a + b == b;
    } else {
      assert (a + b)[0] == a[0];
      assert (a + b)[1..] == a[1..] + b;
      KeepRowsAppend(a[1..], b);
    }
  }

  /** There are at most as many rows as whole groups of five fields. */
  lemma {:induction false} RowCountBound(fields: seq<string>)
    ensures |KeepRows(Groups(fields))| <= |fields| / RowSize
    decreases |fields|
  {
    if fields != [] {
      var n := if |fields| < RowSize then |fields| else RowSize;
      var gs := Groups(fields);
      assert gs[0] == fields[..n] && gs[1..] == Groups(fields[n..]);
      RowCountBound(fields[n..]);
    }
  }

  /** The event a chunk produces. */
  datatype ListEvent = RouterStatus(running: bool) | SitesCount(count: string) | SiteList(rows: seq<seq<string>>)

  /** The `while` loop: `arrays.push(sitesArray.splice(0, 5))` until
      nothing is left. */
  method SpliceRows(fields: seq<string>) returns (arrays: seq<seq<string>>)
    ensures arrays == Groups(fields)
  {
    var sitesArray := fields;
    arrays := [];
    while |sitesArray| > 0
      invariant arrays + Groups(sitesArray) == Groups(fields)
      decreases |sitesArray|
    {
      var n := if |sitesArray| < RowSize then |sitesArray| else RowSize;
      var row, rest := sitesArray[..n], sitesArray[n..];
      assert Groups(sitesArray) == [row] + Groups(rest);
      assert arrays + ([row] + Groups(rest)) == (arrays + [row]) + Groups(rest);
      arrays := arrays + [row];
      sitesArray := rest;
    }
  }

  /** The `for` loop: keep the groups of five whose first field does not
      hold `NAME`. */
  method FilterRows(arrays: seq<seq<string>>) returns (output: seq<seq<string>>)
    ensures output == KeepRows(arrays)
  {
    output := [];
    for i := 0 to |arrays|
      invariant KeepRows(arrays) == output + KeepRows(arrays[i..])
    {
      var currentArray := arrays[i];
      assert arrays[i..] == [arrays[i]] + arrays[i + 1..];
      assert KeepRows(arrays[i..]) == (if IsSiteRow(currentArray) then [currentArray] else []) + KeepRows(arrays[i + 1..]);
      if |currentArray| == RowSize && IndexOf(currentArray[0], "NAME") == -1 {
        output := output + [currentArray];
      }
    }
  }

  /** `parseListLines` on one chunk. */
  method ParseListLines(line: string) returns (ev: Option<ListEvent>)
    ensures Contains(line, "DDEV ROUTER STATUS") ==> ev == Some(RouterStatus(Contains(line, "running")))
    ensures !Contains(line, "DDEV ROUTER STATUS") && Contains(line, "sites found") ==>
              ev == Some(SitesCount(SplitOn(line, " ")[0]))
    ensures !Contains(line, "DDEV ROUTER STATUS") && !Contains(line, "sites found") ==>
              ev == if Contains(Normalize(line), "NAME!~!TYPE") then Some(SiteList(KeepRows(Groups(Fields(line)))))
                    else None
  {
    var newline := Normalize(line);
    if IndexOf(line, "DDEV ROUTER STATUS") != -1 {
      ev := Some(RouterStatus(IndexOf(line, "running") != -1));
    } else if IndexOf(line, "sites found") != -1 {
      ev := Some(SitesCount(SplitOn(line, " ")[0]));
    } else if IndexOf(newline, "NAME!~!TYPE") != -1 {
      var arrays := SpliceRows(SplitOn(newline, Marker));
      var output := FilterRows(arrays);
      ev := Some(SiteList(output));
    } else {
      ev := None;
    }
  }

  /** The site count is the text before the first space of the chunk. */
  lemma SitesCountIsFirstWord(line: string)
    ensures ' ' !in SplitOn(line, " ")[0]
    ensures SplitOn(line, " ")[0] == line[..|SplitOn(line, " ")[0]|]
  {
    FirstPartBeforeSeparator(line, ' ');
  }

  /** A table row that lacks a field shifts the rows after it: the fields
      are grouped by position, not by line, so a four-field row takes the
      first field of the next row, and what is left of that row is a short
      group that is dropped. */
  lemma ShortRowAbsorbsNextRow(short: seq<string>, next: seq<string>)
    requires |short| == RowSize - 1 && |next| == RowSize
    ensures Groups(short + next) == [short + [next[0]], next[1..]]
    ensures KeepRows(Groups(short + next)) == if IsSiteRow(short + [next[0]]) then [short + [next[0]]] else []
  {
    var fields := short + next;
    GroupsStep(fields);
    assert fields[..RowSize] == short + [next[0]];
    assert fields[RowSize..] == next[1..];
    GroupsStep(next[1..]);
    assert next[1..][..|next[1..]|] == next[1..] && next[1..][|next[1..]|..] == [];
    assert Groups(short + next) == [short + [next[0]], next[1..]];
    assert KeepRows([next[1..]]) == [];
  }

  // ----- the spawn helper -----

  /** `cmd ? [cmd] : []`. */
  function SpawnArgs(cmd: string): (argv: seq<string>)
    ensures argv == [] <==> cmd == ""
    ensures argv != [] ==> argv == [cmd]
  {
    if cmd != "" then [cmd] else []
  }

  /** The working directory: `path` defaults to `/` when left out
      (`None`), and its first `~` becomes the home directory. */
  function SpawnCwd(path: Option<string>, home: string): (cwd: string)
    ensures path.None? ==> cwd == "/"
    ensures path.Some? ==> cwd == DdevShell.ExpandHome(path.value, home)
  {
    DdevShell.ExpandNoTilde("/", home);
    DdevShell.ExpandHome(if path.Some? then path.value else "/", home)
  }
}
