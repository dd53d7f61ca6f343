/**
 What the three service files say before their variables (connector/src/service.ts: `keepaliveScript`, `systemdUnit`,
 `launchdPlist`): nothing in it can be taken for the line of PATH.
 */
module ServiceHeaders {
  import opened Text
  import opened Quoting
  import opened ServiceFiles

  function Rows(rows: seq<string>): (r: string) {
    if rows == [] then "" else rows[0] + "\n" + Rows(rows[1..])
  }

  // ----- their texts, cut into short pieces -----

  const WRITTEN :=
    ["# Written by", " \"claw-connector service", " install\"; remove with", " \"claw-connector service",
     " uninstall\"."]

  const SCRIPT_WRITTEN :=
    ["# Written by", " \"claw-connector service", " install --supervisor", " script\". Idempotent:",
     " starts the connector's", " supervisor"]
  const SCRIPT_UNLESS :=
    ["# unless it is already", " running, and does", " nothing after a", " revocation until",
     " \"claw-connector login\"."]
  const SCRIPT_CALL := ["# Call it from the", " container's startup", " hook and every 5", " minutes, for example:"]
  const SCRIPT_CRON :=
    ["#   @reboot  sh", " $HOME/.../keepalive.sh", "        */5 * * * *  sh", " $HOME/.../keepalive.sh"]

  function ScriptRows(): (rows: seq<string>) {
    ["#!/bin/sh", Concat(SCRIPT_WRITTEN), Concat(SCRIPT_UNLESS), Concat(SCRIPT_CALL), Concat(SCRIPT_CRON)]
  }

  const DESCRIPTION := ["Description=Claw", " connector", " (claw-connector run)"]
  const NEVER_GIVE_UP :=
    ["# Never give up: a", " machine that was", " offline for an hour", " must still come back by", " itself."]

  /** A word of `ExecStart=`, where `$` would be expanded. */
  function SdQuote(s: string): (r: string) {
    ReplaceChar(SdEnv(s), '$', "$$")
  }

  function UnitRows(): (rows: seq<string>) {
    [Concat(WRITTEN), "[Unit]", Concat(DESCRIPTION), "Wants=network-online.target", "After=network-online.target",
     Concat(NEVER_GIVE_UP), "StartLimitIntervalSec=0", "", "[Service]", "Type=simple"]
  }

  function ExecRows(node: string, cli: string): (rows: seq<string>) {
    ["ExecStart=" + (SdQuote(node) + " " + SdQuote(cli) + " run --supervised"),
     "ExecStop=" + (SdQuote(node) + " " + SdQuote(cli) + " stop")]
  }

  const LABEL := "com.primusclaw.connector"
  const LABEL_KEY := "Label</key><string>" + LABEL + "</string>"
  const XML := ["<?xml version=\"1.0\"", " encoding=\"UTF-8\"?>"]
  const DOCTYPE :=
    ["<!DOCTYPE plist PUBLIC", " \"-//Apple//DTD PLIST", " 1.0//EN\"", " \"http://www.apple.com/", "DTDs/",
     "PropertyList-1.0.dtd\">"]
  const PLIST_WRITTEN :=
    ["<!-- Written by", " \"claw-connector service", " install\"; remove with", " \"claw-connector service",
     " uninstall\". -->"]

  function ProgramRow(node: string, cli: string): (row: string) {
    Concat(["  <array><string>", XmlEscape(node), "</string><string>", XmlEscape(cli), "</string><string>run</string>",
            "<string>--supervised</string>", "</array>"])
  }

  function Header(kind: Kind, node: string, cli: string): (text: string) {
    match kind
    case Script => Rows(ScriptRows())
    case Systemd => Rows(UnitRows()) + Rows(ExecRows(node, cli))
    case Plist =>
      Rows([Concat(XML), Concat(DOCTYPE), Concat(PLIST_WRITTEN), "<plist version=\"1.0\">", "<dict>"])
      + Rows(["  <key>" + LABEL_KEY, "  <key>" + "ProgramArguments</key>"])
      + Rows([ProgramRow(node, cli)])
      + Rows(["  <key>" + "EnvironmentVariables</key>", "  <dict>"])
  }

  // ----- rows that do not name PATH -----

  predicate Quiet(kind: Kind, row: string) {
    Absent(row + "\n", Needle(kind), Anchored(kind))
  }

  lemma {:induction false} RowsAreQuiet(kind: Kind, rows: seq<string>)
    requires forall i :: 0 <= i < |rows| ==> Quiet(kind, rows[i])
    ensures Absent(Rows(rows), Needle(kind), Anchored(kind)) && Closed(Rows(rows))
  {
    hide Absent;
    NothingAbsent(Needle(kind), Anchored(kind));
    if rows != [] {
      RowsAreQuiet(kind, rows[1..]);
      NeedleIsALine(kind);
      assert Quiet(kind, rows[0]);
      AbsentAppend(rows[0] + "\n", Rows(rows[1..]), Needle(kind), Anchored(kind));
    }
  }

  lemma QuietTogether(kind: Kind, a: string, b: string)
    requires Absent(a, Needle(kind), Anchored(kind)) && Closed(a)
    requires Absent(b, Needle(kind), Anchored(kind)) && Closed(b)
    ensures Absent(a + b, Needle(kind), Anchored(kind)) && Closed(a + b)
  {
    hide Absent;
    NeedleIsALine(kind);
    AbsentAppend(a, b, Needle(kind), Anchored(kind));
  }

  predicate OneLines(parts: seq<string>) {
    forall i :: 0 <= i < |parts| ==> OneLine(parts[i])
  }

  lemma {:induction false} ConcatOneLine(parts: seq<string>)
    requires OneLines(parts)
    ensures OneLine(Concat(parts))
  {
    if parts != [] {
      ConcatOneLine(parts[..|parts| - 1]);
    }
  }

  /** A row of one line whose first or second character is not the needle's. */
  lemma OtherStart(kind: Kind, row: string, k: nat)
    requires Anchored(kind) && OneLine(row) && k < 2 && k < |row| && row[k] != Needle(kind)[k]
    ensures Quiet(kind, row)
  {
    hide OneLine;
    OnlyAtStart(row, Needle(kind));
  }

  lemma {:induction false} ConcatStart(parts: seq<string>)
    requires parts != [] && parts[0] != ""
    ensures Concat(parts) != "" && Concat(parts)[0] == parts[0][0]
  {
    if |parts| > 1 {
      ConcatStart(parts[..|parts| - 1]);
    } else {
      assert Concat(parts[..0]) == "";
    }
  }

  lemma QuietParts(kind: Kind, parts: seq<string>)
    requires Anchored(kind) && OneLines(parts) && parts != [] && parts[0] != "" && parts[0][0] != Needle(kind)[0]
    ensures Quiet(kind, Concat(parts))
  {
    hide Concat, OneLine, Quiet;
    ConcatOneLine(parts);
    ConcatStart(parts);
    OtherStart(kind, Concat(parts), 0);
  }

  // ----- the script and the unit -----

  lemma ScriptWrittenParts()
    ensures OneLines(SCRIPT_WRITTEN)
  {
    assert OneLine(SCRIPT_WRITTEN[0]) && OneLine(SCRIPT_WRITTEN[1]) && OneLine(SCRIPT_WRITTEN[2])
           && OneLine(SCRIPT_WRITTEN[3]) && OneLine(SCRIPT_WRITTEN[4]) && OneLine(SCRIPT_WRITTEN[5]);
  }

  lemma ScriptUnlessParts()
    ensures OneLines(SCRIPT_UNLESS)
  {
    assert OneLine(SCRIPT_UNLESS[0]) && OneLine(SCRIPT_UNLESS[1]) && OneLine(SCRIPT_UNLESS[2])
           && OneLine(SCRIPT_UNLESS[3]) && OneLine(SCRIPT_UNLESS[4]);
  }

  lemma ScriptCallParts()
    ensures OneLines(SCRIPT_CALL)
  {
    assert OneLine(SCRIPT_CALL[0]) && OneLine(SCRIPT_CALL[1]) && OneLine(SCRIPT_CALL[2]) && OneLine(SCRIPT_CALL[3]);
  }

  lemma ScriptCronParts()
    ensures OneLines(SCRIPT_CRON)
  {
    assert OneLine(SCRIPT_CRON[0]) && OneLine(SCRIPT_CRON[1]) && OneLine(SCRIPT_CRON[2]) && OneLine(SCRIPT_CRON[3]);
  }

  lemma ScriptTop()
    ensures Quiet(Script, "#!/bin/sh")
  {
    hide Quiet;
    OtherStart(Script, "#!/bin/sh", 0);
  }

  lemma ScriptIsQuiet()
    ensures Absent(Rows(ScriptRows()), Needle(Script), true) && Closed(Rows(ScriptRows()))
  {
    hide Quiet, Absent, OneLine, Concat, Rows, OneLines;
    ScriptWrittenParts();
    ScriptUnlessParts();
    ScriptCallParts();
    ScriptCronParts();
    ScriptTop();
    QuietParts(Script, SCRIPT_WRITTEN);
    QuietParts(Script, SCRIPT_UNLESS);
    QuietParts(Script, SCRIPT_CALL);
    QuietParts(Script, SCRIPT_CRON);
    RowsAreQuiet(Script, ScriptRows());
  }

  lemma WrittenParts()
    ensures OneLines(WRITTEN)
  {
    assert OneLine(WRITTEN[0]) && OneLine(WRITTEN[1]) && OneLine(WRITTEN[2]) && OneLine(WRITTEN[3])
           && OneLine(WRITTEN[4]);
  }

  lemma DescriptionParts()
    ensures OneLines(DESCRIPTION)
  {
    assert OneLine(DESCRIPTION[0]) && OneLine(DESCRIPTION[1]) && OneLine(DESCRIPTION[2]);
  }

  lemma NeverGiveUpParts()
    ensures OneLines(NEVER_GIVE_UP)
  {
    assert OneLine(NEVER_GIVE_UP[0]) && OneLine(NEVER_GIVE_UP[1]) && OneLine(NEVER_GIVE_UP[2])
           && OneLine(NEVER_GIVE_UP[3]) && OneLine(NEVER_GIVE_UP[4]);
  }

  lemma EmptyRow(kind: Kind)
    requires Anchored(kind)
    ensures Quiet(kind, "")
  {
  }

  lemma UnitShortRows()
    ensures Quiet(Systemd, "[Unit]") && Quiet(Systemd, "StartLimitIntervalSec=0") && Quiet(Systemd, "[Service]")
    ensures Quiet(Systemd, "Type=simple")
  {
    hide Quiet;
    OtherStart(Systemd, "[Unit]", 0);
    OtherStart(Systemd, "StartLimitIntervalSec=0", 0);
    OtherStart(Systemd, "[Service]", 0);
    OtherStart(Systemd, "Type=simple", 0);
  }

  lemma UnitNetworkRows()
    ensures Quiet(Systemd, "Wants=network-online.target") && Quiet(Systemd, "After=network-online.target")
  {
    hide Quiet;
    OtherStart(Systemd, "Wants=network-online.target", 0);
    OtherStart(Systemd, "After=network-online.target", 0);
  }

  lemma UnitIsQuiet()
    ensures Absent(Rows(UnitRows()), Needle(Systemd), true) && Closed(Rows(UnitRows()))
  {
    hide Quiet, Absent, Concat, Rows, OneLines;
    WrittenParts();
    DescriptionParts();
    NeverGiveUpParts();
    QuietParts(Systemd, WRITTEN);
    QuietParts(Systemd, DESCRIPTION);
    QuietParts(Systemd, NEVER_GIVE_UP);
    UnitShortRows();
    UnitNetworkRows();
    EmptyRow(Systemd);
    RowsAreQuiet(Systemd, UnitRows());
  }

  lemma SdQuoteOneLine(s: string)
    requires OneLine(s)
    ensures OneLine(SdQuote(s))
  {
    hide ReplaceChar, SdEscape;
    EscapesKeepLine(s);
    ReplaceKeepsLine(SdEnv(s), '$', "$$");
  }

  lemma ExecIsQuiet(node: string, cli: string)
    requires OneLine(node) && OneLine(cli)
    ensures Absent(Rows(ExecRows(node, cli)), Needle(Systemd), true) && Closed(Rows(ExecRows(node, cli)))
  {
    hide Quiet, Absent, Rows, SdQuote;
    SdQuoteOneLine(node);
    SdQuoteOneLine(cli);
    var rows := ExecRows(node, cli);
    OtherStart(Systemd, rows[0], 1);
    OtherStart(Systemd, rows[1], 1);
    RowsAreQuiet(Systemd, rows);
  }

  // ----- the plist -----

  /** No key element begins in it. */
  predicate KeyFree(s: string) {
    forall i :: 0 <= i < |s| && s[i] == '<' ==> i + 1 < |s| && s[i + 1] != 'k'
  }

  lemma KeyFreeAdd(a: string, b: string)
    requires KeyFree(a) && KeyFree(b)
    ensures KeyFree(a + b)
  {
  }

  predicate KeyFrees(parts: seq<string>) {
    forall i :: 0 <= i < |parts| ==> KeyFree(parts[i])
  }

  lemma {:induction false} ConcatKeyFree(parts: seq<string>)
    requires KeyFrees(parts)
    ensures KeyFree(Concat(parts))
  {
    hide KeyFree;
    if parts != [] {
      ConcatKeyFree(parts[..|parts| - 1]);
      KeyFreeAdd(Concat(parts[..|parts| - 1]), parts[|parts| - 1]);
    } else {
      NoTagNoKey("");
    }
  }

  lemma NoTagNoKey(s: string)
    requires '<' !in s
    ensures KeyFree(s)
  {
  }

  lemma NeedleStart(text: string, i: nat)
    requires At(text, i, Needle(Plist))
    ensures i + 6 < |text| && text[i] == '<' && text[i + 1] == 'k' && text[i + 5] == 'P' && text[i + 6] == 'A'
  {
    var n := text[i..i + 23];
    assert n[0] == '<' && n[1] == 'k' && n[5] == 'P' && n[6] == 'A';
  }

  lemma KeyFreeIsQuiet(row: string)
    requires KeyFree(row)
    ensures Quiet(Plist, row)
  {
    hide At;
    NoTagNoKey("\n");
    KeyFreeAdd(row, "\n");
    forall i | 0 <= i < |row + "\n"| ensures !At(row + "\n", i, Needle(Plist)) {
      if At(row + "\n", i, Needle(Plist)) {
        NeedleStart(row + "\n", i);
      }
    }
  }

  /** A row that names another key first. */
  lemma OtherKeyIsQuiet(rest: string)
    requires KeyFree(rest) && |rest| > 1 && (rest[0] != 'P' || rest[1] != 'A')
    ensures Quiet(Plist, "  <key>" + rest)
  {
    hide At;
    var row := "  <key>" + rest + "\n";
    NoTagNoKey("\n");
    KeyFreeAdd(rest, "\n");
    assert row[7..] == rest + "\n";
    forall i | 0 <= i < |row| ensures !At(row, i, Needle(Plist)) {
      assert i >= 7 ==> row[i] == (rest + "\n")[i - 7];
      if At(row, i, Needle(Plist)) {
        NeedleStart(row, i);
      }
    }
  }

  lemma XmlParts()
    ensures KeyFrees(XML)
  {
    assert KeyFree(XML[0]) && KeyFree(XML[1]);
  }

  lemma DoctypeParts()
    ensures KeyFrees(DOCTYPE)
  {
    assert KeyFree(DOCTYPE[0]) && KeyFree(DOCTYPE[1]) && KeyFree(DOCTYPE[2]) && KeyFree(DOCTYPE[3])
           && KeyFree(DOCTYPE[4]) && KeyFree(DOCTYPE[5]);
  }

  lemma PlistWrittenParts()
    ensures KeyFrees(PLIST_WRITTEN)
  {
    assert KeyFree(PLIST_WRITTEN[0]) && KeyFree(PLIST_WRITTEN[1]) && KeyFree(PLIST_WRITTEN[2])
           && KeyFree(PLIST_WRITTEN[3]) && KeyFree(PLIST_WRITTEN[4]);
  }

  lemma PlistShortRows()
    ensures KeyFree("<plist version=\"1.0\">") && KeyFree("<dict>") && KeyFree("  <dict>")
  {
  }

  lemma KeyRows()
    ensures KeyFree(LABEL_KEY) && LABEL_KEY[..2] == "La" && KeyFree("ProgramArguments</key>")
    ensures KeyFree("EnvironmentVariables</key>")
  {
    NoTagNoKey(LABEL);
    KeyFreeAdd("Label</key><string>", LABEL);
    KeyFreeAdd("Label</key><string>" + LABEL, "</string>");
  }

  lemma ProgramRowIsQuiet(node: string, cli: string)
    ensures Quiet(Plist, ProgramRow(node, cli))
  {
    hide XmlEscape, Concat, Quiet;
    XmlNoTags(node);
    XmlNoTags(cli);
    NoTagNoKey(XmlEscape(node));
    NoTagNoKey(XmlEscape(cli));
    var parts := ["  <array><string>", XmlEscape(node), "</string><string>", XmlEscape(cli),
                  "</string><string>run</string>",
                  "<string>--supervised</string>", "</array>"];
    ConcatKeyFree(parts);
    KeyFreeIsQuiet(ProgramRow(node, cli));
  }

  lemma PlistIsQuiet(node: string, cli: string)
    ensures Absent(Header(Plist, node, cli), Needle(Plist), false) && Closed(Header(Plist, node, cli))
  {
    hide Quiet, Absent, Concat, Rows, KeyFree, ProgramRow, Closed;
    XmlParts();
    DoctypeParts();
    PlistWrittenParts();
    PlistShortRows();
    KeyRows();
    ConcatKeyFree(XML);
    ConcatKeyFree(DOCTYPE);
    ConcatKeyFree(PLIST_WRITTEN);
    var first := [Concat(XML), Concat(DOCTYPE), Concat(PLIST_WRITTEN), "<plist version=\"1.0\">", "<dict>"];
    forall i | 0 <= i < |first| ensures Quiet(Plist, first[i]) {
      KeyFreeIsQuiet(first[i]);
    }
    RowsAreQuiet(Plist, first);
    OtherKeyIsQuiet(LABEL_KEY);
    OtherKeyIsQuiet("ProgramArguments</key>");
    var keys := ["  <key>" + LABEL_KEY, "  <key>" + "ProgramArguments</key>"];
    RowsAreQuiet(Plist, keys);
    ProgramRowIsQuiet(node, cli);
    RowsAreQuiet(Plist, [ProgramRow(node, cli)]);
    OtherKeyIsQuiet("EnvironmentVariables</key>");
    KeyFreeIsQuiet("  <dict>");
    RowsAreQuiet(Plist, ["  <key>" + "EnvironmentVariables</key>", "  <dict>"]);
    QuietTogether(Plist, Rows(first), Rows(keys));
    QuietTogether(Plist, Rows(first) + Rows(keys), Rows([ProgramRow(node, cli)]));
    QuietTogether(Plist, Rows(first) + Rows(keys) + Rows([ProgramRow(node, cli)]),
                  Rows(["  <key>" + "EnvironmentVariables</key>", "  <dict>"]));
  }

  // ----- the whole file -----

  /** Nothing before the variables matches, whatever `node` and `cli` are (in a unit, of one line). */
  lemma HeaderIsQuiet(kind: Kind, node: string, cli: string)
    requires kind.Systemd? ==> OneLine(node) && OneLine(cli)
    ensures Absent(Header(kind, node, cli), Needle(kind), Anchored(kind)) && Closed(Header(kind, node, cli))
  {
    hide Absent, Rows, Closed, OneLine;
    match kind
    case Script => ScriptIsQuiet();
    case Systemd =>
      UnitIsQuiet();
      ExecIsQuiet(node, cli);
      QuietTogether(Systemd, Rows(UnitRows()), Rows(ExecRows(node, cli)));
    case Plist => PlistIsQuiet(node, cli);
  }

  /**
   In a script, unit or plist as `service install` writes it, with PATH among its variables, the expression has a first
   match, and whatever its first match is, unescaping what it captured gives back the PATH written there.
   */
  lemma InstalledPathRecovered(kind: Kind, node: string, cli: string, vars: seq<Var>, j: nat, after: string)
    requires kind.Systemd? ==> OneLine(node) && OneLine(cli)
    requires forall i :: 0 <= i < |vars| ==> Plain(vars[i])
    requires j < |vars| && vars[j].key == "PATH" && forall i :: 0 <= i < j ==> vars[i].key != "PATH"
    ensures var text := File(kind, Header(kind, node, cli), vars, after);
            && (exists i, group :: FirstMatch(kind, text, i, group))
            && (forall i, group :: FirstMatch(kind, text, i, group) ==> Unescape(kind, group) == vars[j].value)
  {
    hide Absent, Closed, Plain, Header, File, FirstMatch, Unescape;
    HeaderIsQuiet(kind, node, cli);
    PathRecovered(kind, Header(kind, node, cli), vars, j, after);
  }
}
