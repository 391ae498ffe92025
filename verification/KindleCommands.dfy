/** The device commands of the clock screen, written exactly as the format strings write them,
    and what a shell makes of them. */
module KindleCommands {
  import opened Common
  import opened ShellWords

  const FBINK := "/mnt/us/usbnet/bin/fbink"

  // ----- %d -----

  function Digits(n: nat): string {
    if n < 10 then [(n + '0' as int) as char] else Digits(n / 10) + [(n % 10 + '0' as int) as char]
  }

  /** The decimal form of an integer. */
  function Itoa(n: int): string {
    if n < 0 then "-" + Digits(-n) else Digits(n)
  }

  lemma {:induction false} DigitsPlain(n: nat)
    ensures AllPlain(Digits(n)) && Digits(n) != ""
    decreases n
  {
    if n >= 10 {
      DigitsPlain(n / 10);
    }
  }

  lemma ItoaPlain(n: int)
    ensures AllPlain(Itoa(n)) && Itoa(n) != ""
  {
    DigitsPlain(if n < 0 then -n else n);
  }

  // ----- regions -----

  datatype Box = Box(top: int, left: int, width: int, height: int)

  function RegionSpec(box: Box): string {
    "top=" + Itoa(box.top) + ",left=" + Itoa(box.left) + ",width=" + Itoa(box.width) + ",height=" + Itoa(box.height)
  }

  /** One more field of a region. */
  lemma FieldPlain(s: string, key: string, n: int)
    requires AllPlain(s) && AllPlain(key)
    ensures AllPlain(s + key + Itoa(n)) && s + key + Itoa(n) != ""
  {
    ItoaPlain(n);
  }

  lemma KeysPlain()
    ensures AllPlain("top=") && AllPlain(",left=") && AllPlain(",width=") && AllPlain(",height=")
  {
  }

  /** A region can stand unquoted in a command. */
  lemma RegionPlain(box: Box)
    ensures AllPlain(RegionSpec(box)) && RegionSpec(box) != ""
  {
    KeysPlain();
    FieldPlain("", "top=", box.top);
    var s1 := "top=" + Itoa(box.top);
    assert "" + "top=" + Itoa(box.top) == s1;
    FieldPlain(s1, ",left=", box.left);
    FieldPlain(s1 + ",left=" + Itoa(box.left), ",width=", box.width);
    FieldPlain(s1 + ",left=" + Itoa(box.left) + ",width=" + Itoa(box.width), ",height=", box.height);
  }

  // ----- the commands -----

  /** drawTextRegionContext's command. */
  function TextRegionCommand(region: string, spec: string, value: string, centered: bool): string {
    FBINK + " -q -b -B WHITE -k " + region + " && "
    + FBINK + " -q -b -B WHITE -C BLACK" + (if centered then " -m -M" else "") + " -t " + ShellQuote(spec)
    + " -- " + ShellQuote(value) + " && "
    + FBINK + " -q -W GC16 -s " + region
  }

  /** drawClockContext's command. */
  function ClockCommand(
      region: string, timeSpec: string, timeText: string, periodSpec: string, periodText: string): string {
    FBINK + " -q -b -B WHITE -k " + region + " && "
    + FBINK + " -q -b -B WHITE -C BLACK -m -M -t " + ShellQuote(timeSpec) + " -- " + ShellQuote(timeText) + " && "
    + FBINK + " -q -b -B WHITE -C BLACK -m -M -t " + ShellQuote(periodSpec) + " -- " + ShellQuote(periodText) + " && "
    + FBINK + " -q -W GC16 -s " + region
  }

  /** The words the commands are meant to consist of. */
  const BLANK: seq<Arg> := [Bare(FBINK), Bare("-q"), Bare("-b"), Bare("-B"), Bare("WHITE")]

  function Clear(region: string): seq<Arg> {
    BLANK + [Bare("-k")] + [Bare(region)]
  }

  function Refresh(region: string): seq<Arg> {
    [Bare(FBINK)] + [Bare("-q")] + [Bare("-W")] + [Bare("GC16")] + [Bare("-s")] + [Bare(region)]
  }

  function Ink(centered: bool): seq<Arg> {
    var left := BLANK + [Bare("-C")] + [Bare("BLACK")];
    if centered then left + [Bare("-m")] + [Bare("-M")] else left
  }

  function Type(centered: bool, spec: string, text: string): seq<Arg> {
    Ink(centered) + [Bare("-t")] + [Quoted(spec)] + [Bare("--")] + [Quoted(text)]
  }

  lemma Extend(args: seq<Arg>, a: Arg, text: string, written: string)
    requires args != [] && Line(args) == FBINK + text && text + " " + a.Written() == written
    ensures Line(args + [a]) == FBINK + written
  {
    assert (args + [a])[..|args|] == args;
    assert FBINK + text + " " + a.Written() == FBINK + written;
  }

  lemma BlankLine()
    ensures Line(BLANK) == FBINK + " -q -b -B WHITE"
  {
    var a := [Bare(FBINK)];
    assert Line(a) == FBINK + "";
    assert BLANK == a + [Bare("-q")] + [Bare("-b")] + [Bare("-B")] + [Bare("WHITE")];
    Extend(a, Bare("-q"), "", " -q");
    Extend(a + [Bare("-q")], Bare("-b"), " -q", " -q -b");
    Extend(a + [Bare("-q")] + [Bare("-b")], Bare("-B"), " -q -b", " -q -b -B");
    Extend(a + [Bare("-q")] + [Bare("-b")] + [Bare("-B")], Bare("WHITE"), " -q -b -B", " -q -b -B WHITE");
  }

  lemma ClearLine(region: string)
    ensures Line(Clear(region)) == FBINK + " -q -b -B WHITE -k " + region
  {
    BlankLine();
    Extend(BLANK, Bare("-k"), " -q -b -B WHITE", " -q -b -B WHITE -k");
    Extend(BLANK + [Bare("-k")], Bare(region), " -q -b -B WHITE -k", " -q -b -B WHITE -k" + " " + region);
    assert " -q -b -B WHITE -k" + " " == " -q -b -B WHITE -k ";
  }

  lemma RefreshLine(region: string)
    ensures Line(Refresh(region)) == FBINK + " -q -W GC16 -s " + region
  {
    var a := [Bare(FBINK)];
    assert Line(a) == FBINK + "";
    var b := a + [Bare("-q")];
    var c := b + [Bare("-W")];
    var d := c + [Bare("GC16")];
    var e := d + [Bare("-s")];
    Extend(a, Bare("-q"), "", " -q");
    Extend(b, Bare("-W"), " -q", " -q -W");
    Extend(c, Bare("GC16"), " -q -W", " -q -W GC16");
    Extend(d, Bare("-s"), " -q -W GC16", " -q -W GC16 -s");
    Extend(e, Bare(region), " -q -W GC16 -s", " -q -W GC16 -s" + " " + region);
    assert " -q -W GC16 -s" + " " == " -q -W GC16 -s ";
  }

  /** The text before the type specification. */
  function InkText(centered: bool): string {
    " -q -b -B WHITE -C BLACK" + (if centered then " -m -M" else "")
  }

  lemma InkLine(centered: bool)
    ensures Line(Ink(centered)) == FBINK + InkText(centered)
  {
    BlankLine();
    var a := BLANK + [Bare("-C")];
    var b := a + [Bare("BLACK")];
    Extend(BLANK, Bare("-C"), " -q -b -B WHITE", " -q -b -B WHITE -C");
    Extend(a, Bare("BLACK"), " -q -b -B WHITE -C", " -q -b -B WHITE -C BLACK");
    if centered {
      Extend(b, Bare("-m"), " -q -b -B WHITE -C BLACK", " -q -b -B WHITE -C BLACK -m");
      Extend(b + [Bare("-m")], Bare("-M"), " -q -b -B WHITE -C BLACK -m", " -q -b -B WHITE -C BLACK -m -M");
    }
  }

  lemma Append(args: seq<Arg>, a: Arg)
    requires args != []
    ensures Line(args + [a]) == Line(args) + " " + a.Written()
  {
    assert (args + [a])[..|args|] == args;
  }

  lemma Merge(head: string, a: string, b: string, both: string)
    requires a + b == both
    ensures head + a + b == head + both
  {
    assert head + a + b == head + (a + b);
  }

  lemma TypeLine(centered: bool, spec: string, text: string)
    ensures Line(Type(centered, spec, text))
            == FBINK + InkText(centered) + " -t " + ShellQuote(spec) + " -- " + ShellQuote(text)
  {
    InkLine(centered);
    var a := Ink(centered);
    var b := a + [Bare("-t")];
    var c := b + [Quoted(spec)];
    var d := c + [Bare("--")];
    var h := FBINK + InkText(centered);
    Append(a, Bare("-t"));
    Merge(h, " ", "-t", " -t");
    Append(b, Quoted(spec));
    Merge(h, " -t", " ", " -t ");
    var k := h + " -t " + ShellQuote(spec);
    Append(c, Bare("--"));
    Merge(k, " ", "--", " --");
    Append(d, Quoted(text));
    Merge(k, " --", " ", " -- ");
  }

  // ----- the scripts -----

  lemma ScriptAppend(commands: seq<seq<Arg>>, last: seq<Arg>)
    requires commands != []
    ensures Script(commands + [last]) == Script(commands) + " && " + Line(last)
  {
    assert (commands + [last])[..|commands|] == commands;
  }

  /** fmt.Sprintf joins the pieces in the order of the format; grouping does not matter. */
  lemma Regroup(s: string, a: string, b: string, c: string, d: string, e: string, f: string)
    ensures s + (a + b + c + d + e + f) == s + a + b + c + d + e + f
  {
    assert s + (a + b + c + d + e + f) == s + (a + b + c + d + e) + f;
    assert s + (a + b + c + d + e) == s + (a + b + c + d) + e;
    assert s + (a + b + c + d) == s + (a + b + c) + d;
    assert s + (a + b + c) == s + (a + b) + c;
    assert s + (a + b) == s + a + b;
  }

  lemma FixedArgsPlain()
    ensures AllPlain(FBINK)
    ensures AllPlain("-q") && AllPlain("-b") && AllPlain("-B") && AllPlain("WHITE") && AllPlain("-k")
    ensures AllPlain("-C") && AllPlain("BLACK") && AllPlain("-m") && AllPlain("-M") && AllPlain("-t") && AllPlain("--")
    ensures AllPlain("-W") && AllPlain("GC16") && AllPlain("-s")
  {
  }

  lemma SoundEnd(args: seq<Arg>, a: Arg)
    requires AllSound(args) && a.Sound()
    ensures AllSound(args + [a])
  {
  }

  lemma BlankSound()
    ensures AllSound(BLANK)
  {
    FixedArgsPlain();
  }

  lemma ClearSound(region: string)
    requires AllPlain(region) && region != ""
    ensures AllSound(Clear(region))
  {
    FixedArgsPlain();
    BlankSound();
    SoundEnd(BLANK, Bare("-k"));
    SoundEnd(BLANK + [Bare("-k")], Bare(region));
  }

  lemma RefreshSound(region: string)
    requires AllPlain(region) && region != ""
    ensures AllSound(Refresh(region))
  {
    FixedArgsPlain();
    var a := [Bare(FBINK)];
    SoundEnd(a, Bare("-q"));
    SoundEnd(a + [Bare("-q")], Bare("-W"));
    SoundEnd(a + [Bare("-q")] + [Bare("-W")], Bare("GC16"));
    SoundEnd(a + [Bare("-q")] + [Bare("-W")] + [Bare("GC16")], Bare("-s"));
    SoundEnd(a + [Bare("-q")] + [Bare("-W")] + [Bare("GC16")] + [Bare("-s")], Bare(region));
  }

  lemma InkSound(centered: bool)
    ensures AllSound(Ink(centered))
  {
    FixedArgsPlain();
    BlankSound();
    var a := BLANK + [Bare("-C")];
    var b := a + [Bare("BLACK")];
    SoundEnd(BLANK, Bare("-C"));
    SoundEnd(a, Bare("BLACK"));
    SoundEnd(b, Bare("-m"));
    SoundEnd(b + [Bare("-m")], Bare("-M"));
  }

  lemma TypeSound(centered: bool, spec: string, text: string)
    ensures AllSound(Type(centered, spec, text))
  {
    FixedArgsPlain();
    InkSound(centered);
    var a := Ink(centered) + [Bare("-t")];
    SoundEnd(Ink(centered), Bare("-t"));
    SoundEnd(a, Quoted(spec));
    SoundEnd(a + [Quoted(spec)], Bare("--"));
    SoundEnd(a + [Quoted(spec)] + [Bare("--")], Quoted(text));
  }

  function ClearText(region: string): string {
    FBINK + " -q -b -B WHITE -k " + region
  }

  function TypeText(centered: bool, spec: string, text: string): string {
    FBINK + InkText(centered) + " -t " + ShellQuote(spec) + " -- " + ShellQuote(text)
  }

  function RefreshText(region: string): string {
    FBINK + " -q -W GC16 -s " + region
  }

  lemma RefreshJoined(s: string, region: string)
    ensures s + RefreshText(region) == s + FBINK + " -q -W GC16 -s " + region
  {
    var a, b := FBINK, " -q -W GC16 -s ";
    assert s + (a + b + region) == s + (a + b) + region;
    assert s + (a + b) == s + a + b;
  }

  lemma TypeJoined(s: string, centered: bool, spec: string, text: string)
    ensures s + TypeText(centered, spec, text)
            == s + FBINK + InkText(centered) + " -t " + ShellQuote(spec) + " -- " + ShellQuote(text)
  {
    Regroup(s, FBINK, InkText(centered), " -t ", ShellQuote(spec), " -- ", ShellQuote(text));
  }

  /** drawTextRegionContext's command is a clear, a type and a refresh joined by &&. */
  lemma TextRegionIsScript(region: string, spec: string, value: string, centered: bool)
    ensures TextRegionCommand(region, spec, value, centered)
            == Script([Clear(region), Type(centered, spec, value), Refresh(region)])
  {
    var c, t, f := Clear(region), Type(centered, spec, value), Refresh(region);
    ClearLine(region);
    TypeLine(centered, spec, value);
    RefreshLine(region);
    ScriptAppend([c], t);
    ScriptAppend([c] + [t], f);
    assert [c] + [t] + [f] == [c, t, f];
    var s := ClearText(region) + " && ";
    TypeJoined(s, centered, spec, value);
    Merge(s + FBINK, " -q -b -B WHITE -C BLACK", if centered then " -m -M" else "", InkText(centered));
    RefreshJoined(s + TypeText(centered, spec, value) + " && ", region);
  }

  /** drawClockContext's command types the time and the day period between the clear and the
      refresh. */
  lemma ClockIsScript(region: string, timeSpec: string, timeText: string, periodSpec: string, periodText: string)
    ensures ClockCommand(region, timeSpec, timeText, periodSpec, periodText)
            == Script([Clear(region), Type(true, timeSpec, timeText), Type(true, periodSpec, periodText),
                       Refresh(region)])
  {
    var c, f := Clear(region), Refresh(region);
    var t, p := Type(true, timeSpec, timeText), Type(true, periodSpec, periodText);
    ClearLine(region);
    TypeLine(true, timeSpec, timeText);
    TypeLine(true, periodSpec, periodText);
    RefreshLine(region);
    ScriptAppend([c], t);
    ScriptAppend([c] + [t], p);
    ScriptAppend([c] + [t] + [p], f);
    assert [c] + [t] + [p] + [f] == [c, t, p, f];
    var s := ClearText(region) + " && ";
    InkPieces();
    TypeJoined(s, true, timeSpec, timeText);
    Merge(s + FBINK, InkText(true), " -t ", " -q -b -B WHITE -C BLACK -m -M -t ");
    var s2 := s + TypeText(true, timeSpec, timeText) + " && ";
    TypeJoined(s2, true, periodSpec, periodText);
    Merge(s2 + FBINK, InkText(true), " -t ", " -q -b -B WHITE -C BLACK -m -M -t ");
    RefreshJoined(s2 + TypeText(true, periodSpec, periodText) + " && ", region);
  }

  lemma InkPieces()
    ensures InkText(true) + " -t " == " -q -b -B WHITE -C BLACK -m -M -t "
  {
  }

  lemma MeaningAppend(commands: seq<seq<Arg>>, last: seq<Arg>)
    requires commands != []
    ensures Meaning(commands + [last]) == Meaning(commands) + [AndIf] + Words(last)
  {
    assert (commands + [last])[..|commands|] == commands;
  }

  lemma MeaningOfThree(a: seq<Arg>, b: seq<Arg>, c: seq<Arg>)
    ensures Meaning([a, b, c]) == Words(a) + [AndIf] + Words(b) + [AndIf] + Words(c)
  {
    MeaningAppend([a], b);
    MeaningAppend([a] + [b], c);
    assert [a] + [b] + [c] == [a, b, c];
  }

  /** A shell reads drawTextRegionContext's command as those three commands, with the type
      specification (which contains the font path) and the text as one word each, whatever they
      contain. */
  lemma TextRegionReads(box: Box, spec: string, value: string, centered: bool)
    ensures var region := RegionSpec(box);
            Tokens(TextRegionCommand(region, spec, value, centered))
            == Some(Words(Clear(region)) + [AndIf] + Words(Type(centered, spec, value)) + [AndIf]
                    + Words(Refresh(region)))
  {
    var region := RegionSpec(box);
    var c, t, f := Clear(region), Type(centered, spec, value), Refresh(region);
    RegionPlain(box);
    ClearSound(region);
    TypeSound(centered, spec, value);
    RefreshSound(region);
    TextRegionIsScript(region, spec, value, centered);
    ScriptMeansItsWords([c, t, f]);
    MeaningOfThree(c, t, f);
  }

  /** The same for drawClockContext's command. */
  lemma ClockReads(box: Box, timeSpec: string, timeText: string, periodSpec: string, periodText: string)
    ensures var region := RegionSpec(box);
            Tokens(ClockCommand(region, timeSpec, timeText, periodSpec, periodText))
            == Some(Words(Clear(region)) + [AndIf] + Words(Type(true, timeSpec, timeText)) + [AndIf]
                    + Words(Type(true, periodSpec, periodText)) + [AndIf] + Words(Refresh(region)))
  {
    hide Tokens, Words, Clear, Type, Refresh, RegionSpec, Meaning;
    var region := RegionSpec(box);
    var c, f := Clear(region), Refresh(region);
    var t, p := Type(true, timeSpec, timeText), Type(true, periodSpec, periodText);
    RegionPlain(box);
    ClearSound(region);
    TypeSound(true, timeSpec, timeText);
    TypeSound(true, periodSpec, periodText);
    RefreshSound(region);
    ClockIsScript(region, timeSpec, timeText, periodSpec, periodText);
    ScriptMeansItsWords([c, t, p, f]);
    MeaningOfThree(c, t, p);
    MeaningAppend([c, t, p], f);
    assert [c, t, p] + [f] == [c, t, p, f];
  }
}
