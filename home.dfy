/**
 * The argument lists that `home.py` hands to the Home Assistant command-line
 * client.  Only the construction of the argument list is modelled; running the
 * command is not.
 */
module Home {
  import opened Wrappers

  const LightsEntityId: string := "light.disco_group"
  /** The playlist `play_music` starts, written as host, path, playlist id and share id. */
  const SpotifyPlaylistUrl: string :=
    SpotifyHost + "/playlist/" + PlaylistId + "?si=" + ShareId
  const SpotifyHost: string := "https://open.spotify.com"
  const PlaylistId: string := "5xddIVAtLrZKtt4YGLM1SQ"
  const ShareId: string := "YcvRqaKNTxOi043Qn4LYkg"

  /** The five colour channels of an `rgbww` value. */
  type Rgbww = (int, int, int, int, int)

  // ---------------------------------------------------------------------
  // Rendering integers and lists as Python's `str` does
  // ---------------------------------------------------------------------

  predicate IsDigit(c: char) {
    '0' <= c <= '9'
  }

  /** Neither a comma nor a single quote occurs in `s`. */
  predicate Plain(s: string) {
    ',' !in s && '\'' !in s
  }

  /** No single quote occurs in `s`. */
  predicate QuoteFree(s: string) {
    '\'' !in s
  }

  function DigitChar(d: nat): (c: char)
    requires d < 10
    ensures IsDigit(c)
  {
    ('0' as int + d) as char
  }

  function DigitValue(c: char): (d: nat)
    requires IsDigit(c)
    ensures d < 10
  {
    c as int - '0' as int
  }

  /** The decimal digits of `n`, most significant first, without leading zeros. */
  function NatDigits(n: nat): (s: string)
    ensures |s| > 0
    ensures forall i :: 0 <= i < |s| ==> IsDigit(s[i])
    ensures n > 0 ==> s[0] != '0'
    decreases n
  {
    if n < 10 then [DigitChar(n)] else NatDigits(n / 10) + [DigitChar(n % 10)]
  }

  /** An optionally negative decimal numeral: a sign or a digit, then digits. */
  predicate Numeral(s: string) {
    && |s| > 0
    && (s[0] == '-' || IsDigit(s[0]))
    && forall i :: 0 < i < |s| ==> IsDigit(s[i])
  }

  /** `str(n)` for an integer `n`. */
  function DecimalString(n: int): (s: string)
    ensures |s| > 0 && Plain(s) && Numeral(s)
    ensures s[0] == '-' <==> n < 0
  {
    if n < 0 then "-" + NatDigits(-n) else NatDigits(n)
  }

  /** The value of a string of decimal digits. */
  function ParseNat(s: string): nat
    requires forall i :: 0 <= i < |s| ==> IsDigit(s[i])
  {
    if s == [] then 0 else ParseNat(s[..|s| - 1]) * 10 + DigitValue(s[|s| - 1])
  }

  /** The value of an optionally negative decimal numeral. */
  function ParseInt(s: string): int
    requires Numeral(s)
  {
    if s[0] == '-' then -(ParseNat(s[1..]) as int) else ParseNat(s)
  }

  lemma {:induction false} ParseNatDigits(n: nat)
    ensures ParseNat(NatDigits(n)) == n
    decreases n
  {
    if n >= 10 {
      var s := NatDigits(n);
      assert s[..|s| - 1] == NatDigits(n / 10);
      ParseNatDigits(n / 10);
    }
  }

  /** Reading back `str(n)` gives `n`: the rendering loses nothing. */
  lemma {:induction false} ParseDecimalString(n: int)
    ensures ParseInt(DecimalString(n)) == n
  {
    var s := DecimalString(n);
    if n < 0 {
      assert s[1..] == NatDigits(-n);
      ParseNatDigits(-n);
    } else {
      ParseNatDigits(n);
    }
  }

  /** The items of a Python list of integers, as `str` of the list writes them. */
  function JoinInts(xs: seq<int>): (s: string)
    ensures QuoteFree(s)
  {
    if xs == [] then ""
    else if |xs| == 1 then DecimalString(xs[0])
    else DecimalString(xs[0]) + ", " + JoinInts(xs[1..])
  }

  /** `str(list(c))` for the colour `c`: "[r, g, b, cw, ww]". */
  function RgbwwString(c: Rgbww): (s: string)
    ensures QuoteFree(s)
    ensures |s| >= 2 && s[0] == '[' && s[|s| - 1] == ']'
  {
    "[" + JoinInts([c.0, c.1, c.2, c.3, c.4]) + "]"
  }

  /**
   * Splits the items of a printed list at each comma, dropping the space that
   * follows it.  `item` is the item read so far.
   */
  function SplitItems(s: string, item: string): (r: seq<string>)
    ensures |r| > 0
    decreases |s|
  {
    if s == [] then [item]
    else if s[0] == ',' then [item] + SplitItems(if |s| > 1 && s[1] == ' ' then s[2..] else s[1..], "")
    else SplitItems(s[1..], item + [s[0]])
  }

  /** The values of a list of numerals, or `None` if one of them is not a numeral. */
  function ParseItems(items: seq<string>): (r: Option<seq<int>>)
    ensures r.Some? ==> |r.value| == |items|
  {
    if items == [] then Some([])
    else if !Numeral(items[0]) then None
    else match ParseItems(items[1..])
      case None => None
      case Some(rest) => Some([ParseInt(items[0])] + rest)
  }

  /** Reads a printed list of integers "[a, b, ...]" back into its values. */
  function ReadInts(s: string): Option<seq<int>> {
    if |s| < 2 || s[0] != '[' || s[|s| - 1] != ']' then None
    else if |s| == 2 then Some([])
    else ParseItems(SplitItems(s[1..|s| - 1], ""))
  }

  /** Text without commas is copied into the current item. */
  lemma {:induction false} SplitItemsCopies(p: string, rest: string, item: string)
    requires ',' !in p
    ensures SplitItems(p + rest, item) == SplitItems(rest, item + p)
    decreases |p|
  {
    if p == [] {
      assert p + rest == rest && item + p == item;
    } else {
      assert (p + rest)[0] == p[0] && (p + rest)[1..] == p[1..] + rest;
      SplitItemsCopies(p[1..], rest, item + [p[0]]);
      assert item + [p[0]] + p[1..] == item + p;
    }
  }

  /** The printed items of `xs`, one numeral per value. */
  function Numerals(xs: seq<int>): (r: seq<string>)
    ensures |r| == |xs|
    ensures forall i :: 0 <= i < |xs| ==> r[i] == DecimalString(xs[i])
  {
    seq(|xs|, i requires 0 <= i < |xs| => DecimalString(xs[i]))
  }

  /** Splitting the joined items of a non-empty list gives back one numeral per value. */
  lemma {:induction false} SplitJoinInts(xs: seq<int>)
    requires |xs| > 0
    ensures SplitItems(JoinInts(xs), "") == Numerals(xs)
    decreases |xs|
  {
    var d := DecimalString(xs[0]);
    if |xs| == 1 {
      SplitItemsCopies(d, "", "");
      assert d + "" == d && "" + d == d;
      assert [d] == Numerals(xs);
    } else {
      var rest := ", " + JoinInts(xs[1..]);
      assert JoinInts(xs) == d + rest;
      SplitItemsCopies(d, rest, "");
      assert "" + d == d;
      assert rest[0] == ',' && rest[1] == ' ' && rest[2..] == JoinInts(xs[1..]);
      assert SplitItems(rest, d) == [d] + SplitItems(JoinInts(xs[1..]), "");
      SplitJoinInts(xs[1..]);
      assert [d] + Numerals(xs[1..]) == Numerals(xs);
    }
  }

  /** Parsing the numerals of `xs` gives back `xs`. */
  lemma {:induction false} ParseNumerals(xs: seq<int>)
    ensures ParseItems(Numerals(xs)) == Some(xs)
    decreases |xs|
  {
    if xs != [] {
      var ns := Numerals(xs);
      assert ns[1..] == Numerals(xs[1..]);
      ParseNumerals(xs[1..]);
      ParseDecimalString(xs[0]);
      assert [xs[0]] + xs[1..] == xs;
    }
  }

  /** Reading back `str(list(c))` gives the five channels of `c`, in order. */
  lemma RgbwwStringRead(c: Rgbww)
    ensures ReadInts(RgbwwString(c)) == Some([c.0, c.1, c.2, c.3, c.4])
  {
    var xs := [c.0, c.1, c.2, c.3, c.4];
    var s := RgbwwString(c);
    assert |JoinInts(xs)| > 0;
    assert s[1..|s| - 1] == JoinInts(xs);
    SplitJoinInts(xs);
    ParseNumerals(xs);
  }

  // ---------------------------------------------------------------------
  // The arguments string: comma-separated key=value fields
  // ---------------------------------------------------------------------

  /** One `key=value` field of an `--arguments` string; a quoted value is wrapped in single quotes. */
  datatype Field = Field(key: string, value: string, quoted: bool)

  /** How `f` is written into the arguments string. */
  function Rendered(f: Field): string {
    f.key + "=" + (if f.quoted then "'" + f.value + "'" else f.value)
  }

  /** What the field means once its quotes are removed. */
  function Meaning(f: Field): string {
    f.key + "=" + f.value
  }

  /** A field that can be read back unambiguously: only quotes protect commas. */
  predicate Separable(f: Field) {
    Plain(f.key) && (if f.quoted then QuoteFree(f.value) else Plain(f.value))
  }

  /** How a field after the first one is written: preceded by its comma. */
  function Fragment(f: Field): string {
    "," + Rendered(f)
  }

  /** The fields after the first one, each preceded by its comma. */
  function Fragments(fs: seq<Field>): string {
    if fs == [] then "" else Fragment(fs[0]) + Fragments(fs[1..])
  }

  function Meanings(fs: seq<Field>): (r: seq<string>)
    ensures |r| == |fs|
    ensures forall i :: 0 <= i < |fs| ==> r[i] == Meaning(fs[i])
  {
    seq(|fs|, i requires 0 <= i < |fs| => Meaning(fs[i]))
  }

  /**
   * Reads an arguments string back into its fields: it splits at every comma
   * outside single quotes and drops the quotes.  `field` is the field read so
   * far and `quoted` tells whether a quote is open.
   */
  function SplitFields(s: string, quoted: bool, field: string): (r: seq<string>)
    ensures |r| > 0
    decreases |s|
  {
    if s == [] then [field]
    else if s[0] == '\'' then SplitFields(s[1..], !quoted, field)
    else if s[0] == ',' && !quoted then [field] + SplitFields(s[1..], false, "")
    else SplitFields(s[1..], quoted, field + [s[0]])
  }

  /** Text without quotes (and, outside quotes, without commas) is copied into the current field. */
  lemma {:induction false} SplitCopies(p: string, rest: string, quoted: bool, field: string)
    requires QuoteFree(p)
    requires !quoted ==> Plain(p)
    ensures SplitFields(p + rest, quoted, field) == SplitFields(rest, quoted, field + p)
    decreases |p|
  {
    if p == [] {
      assert p + rest == rest && field + p == field;
    } else {
      assert (p + rest)[0] == p[0] && (p + rest)[1..] == p[1..] + rest;
      assert p[0] != '\'' && (p[0] == ',' ==> quoted);
      SplitCopies(p[1..], rest, quoted, field + [p[0]]);
      assert field + [p[0]] + p[1..] == field + p;
    }
  }

  /** A separable field is read as its meaning. */
  lemma {:induction false} SplitReadsField(f: Field, rest: string, field: string)
    requires Separable(f)
    ensures SplitFields(Rendered(f) + rest, false, field) == SplitFields(rest, false, field + Meaning(f))
  {
    var k := f.key + "=";
    assert Plain(k);
    if f.quoted {
      var tail := "'" + f.value + "'" + rest;
      assert Rendered(f) + rest == k + tail;
      SplitCopies(k, tail, false, field);
      assert tail[1..] == f.value + ("'" + rest);
      SplitCopies(f.value, "'" + rest, true, field + k);
      assert ("'" + rest)[1..] == rest;
      assert field + k + f.value == field + Meaning(f);
    } else {
      assert Rendered(f) + rest == k + f.value + rest;
      SplitCopies(k + f.value, rest, false, field);
    }
  }

  /** Fragments of separable fields are read back as one field each, in order. */
  lemma {:induction false} SplitFragments(fs: seq<Field>, field: string)
    requires forall i :: 0 <= i < |fs| ==> Separable(fs[i])
    ensures SplitFields(Fragments(fs), false, field) == [field] + Meanings(fs)
  {
    if fs != [] {
      var s := Fragments(fs);
      assert s[0] == ',' && s[1..] == Rendered(fs[0]) + Fragments(fs[1..]);
      SplitReadsField(fs[0], Fragments(fs[1..]), "");
      assert "" + Meaning(fs[0]) == Meaning(fs[0]);
      SplitFragments(fs[1..], Meaning(fs[0]));
      assert [Meaning(fs[0])] + Meanings(fs[1..]) == Meanings(fs);
    }
  }

  /** A whole arguments string, first field and fragments, reads back as its fields. */
  lemma {:induction false} SplitArguments(first: Field, fs: seq<Field>)
    requires Separable(first)
    requires forall i :: 0 <= i < |fs| ==> Separable(fs[i])
    ensures SplitFields(Rendered(first) + Fragments(fs), false, "") == [Meaning(first)] + Meanings(fs)
  {
    SplitReadsField(first, Fragments(fs), "");
    assert "" + Meaning(first) == Meaning(first);
    SplitFragments(fs, Meaning(first));
  }

  // ---------------------------------------------------------------------
  // The commands
  // ---------------------------------------------------------------------

  function OnOff(state: bool): (s: string)
    ensures s == "on" <==> state
    ensures s == "off" <==> !state
  {
    if state then "on" else "off"
  }

  /** `"".join(parts)`. */
  function Concat(parts: seq<string>): string {
    if parts == [] then "" else parts[0] + Concat(parts[1..])
  }

  lemma {:induction false} ConcatAppend(parts: seq<string>, last: string)
    ensures Concat(parts + [last]) == Concat(parts) + last
  {
    if parts == [] {
      assert Concat([last]) == last + Concat([]);
    } else {
      assert (parts + [last])[1..] == parts[1..] + [last];
      ConcatAppend(parts[1..], last);
    }
  }

  lemma {:induction false} FragmentsAppend(fs: seq<Field>, f: Field)
    ensures Fragments(fs + [f]) == Fragments(fs) + Fragment(f)
  {
    if fs == [] {
      assert Fragments([f]) == Fragment(f) + Fragments([]);
    } else {
      assert (fs + [f])[1..] == fs[1..] + [f];
      FragmentsAppend(fs[1..], f);
    }
  }

  /** The field an optional integer argument contributes: none when it is omitted. */
  function NumberField(key: string, n: Option<int>): (fs: seq<Field>)
    ensures Plain(key) ==> forall i :: 0 <= i < |fs| ==> Separable(fs[i])
  {
    match n
    case None => []
    case Some(v) => [Field(key, DecimalString(v), false)]
  }

  /** The field an optional colour contributes: its list, in single quotes. */
  function RgbwwField(c: Option<Rgbww>): (fs: seq<Field>)
    ensures forall i :: 0 <= i < |fs| ==> Separable(fs[i])
    ensures c.None? ==> fs == []
    ensures c.Some? ==>
      && |fs| == 1 && fs[0].key == "rgbww" && fs[0].quoted
      && ReadInts(fs[0].value) == Some([c.value.0, c.value.1, c.value.2, c.value.3, c.value.4])
  {
    match c
    case None => []
    case Some(v) => RgbwwStringRead(v); [Field("rgbww", RgbwwString(v), true)]
  }

  /**
   * The fields `lights` writes after the entity id: when the light is turned
   * on, one per supplied option, in the order brightness percentage,
   * brightness step, colour; when it is turned off, none.
   */
  function LightsOptions(state: bool, brightnessPercent: Option<int>, brightnessStep: Option<int>,
                         rgbww: Option<Rgbww>): (fs: seq<Field>)
    ensures forall i :: 0 <= i < |fs| ==> Separable(fs[i])
  {
    if !state then []
    else
      var pct, step, colour := NumberField("brightness_pct", brightnessPercent),
        NumberField("brightness_step", brightnessStep), RgbwwField(rgbww);
      assert Plain("brightness_pct") && Plain("brightness_step");
      AllSeparable(pct, step);
      AllSeparable(pct + step, colour);
      pct + step + colour
  }

  lemma AllSeparable(a: seq<Field>, b: seq<Field>)
    requires forall i :: 0 <= i < |a| ==> Separable(a[i])
    requires forall i :: 0 <= i < |b| ==> Separable(b[i])
    ensures forall i :: 0 <= i < |a + b| ==> Separable((a + b)[i])
  {
  }

  /** The first field of every `lights` arguments string. */
  const LightsEntityField: Field := Field("entity_id", LightsEntityId, false)

  /** The entity field is written "entity_id=light.disco_group". */
  lemma LightsEntityFieldText()
    ensures Rendered(LightsEntityField) == "entity_id=" + LightsEntityId
    ensures "entity_id=" + LightsEntityId == "entity_id=light.disco_group"
  {
  }

  /** Appending the fragment of `f` to the list extends the rendered fields by `f`. */
  lemma AppendField(argList: seq<string>, fs: seq<Field>, f: Field)
    requires Concat(argList) == Fragments(fs)
    ensures Concat(argList + [Fragment(f)]) == Fragments(fs + [f])
  {
    ConcatAppend(argList, Fragment(f));
    FragmentsAppend(fs, f);
  }

  /** The `--arguments` string of `lights`: the entity id, then the option fields. */
  function LightsArguments(state: bool, brightnessPercent: Option<int>, brightnessStep: Option<int>,
                           rgbww: Option<Rgbww>): string
  {
    Rendered(LightsEntityField) + Fragments(LightsOptions(state, brightnessPercent, brightnessStep, rgbww))
  }

  /** Turning the light off sends the entity id alone, whatever options are passed. */
  lemma LightsOffIgnoresOptions(brightnessPercent: Option<int>, brightnessStep: Option<int>, rgbww: Option<Rgbww>)
    ensures LightsArguments(false, brightnessPercent, brightnessStep, rgbww) == "entity_id=light.disco_group"
  {
    LightsEntityFieldText();
  }

  /**
   * The arguments string reads back as the entity id followed by one
   * `key=value` field per option, in order; the commas inside the colour list
   * stay within its field.
   */
  lemma LightsArgumentsRead(state: bool, brightnessPercent: Option<int>, brightnessStep: Option<int>,
                            rgbww: Option<Rgbww>)
    ensures SplitFields(LightsArguments(state, brightnessPercent, brightnessStep, rgbww), false, "") ==
      [Meaning(LightsEntityField)] + Meanings(LightsOptions(state, brightnessPercent, brightnessStep, rgbww))
  {
    EntityFieldSeparable();
    SplitArguments(LightsEntityField, LightsOptions(state, brightnessPercent, brightnessStep, rgbww));
  }

  lemma EntityFieldSeparable()
    ensures Separable(LightsEntityField)
  {
    assert Plain("entity_id");
    assert Plain(LightsEntityId);
  }

  /**
   * The `arg_list` that `lights` builds: when turning on, one fragment per
   * supplied option, appended in the order brightness percentage, brightness
   * step, colour.
   */
  method OptionFragments(state: bool, brightnessPercent: Option<int>, brightnessStep: Option<int>,
                         rgbww: Option<Rgbww>)
    returns (argList: seq<string>)
    ensures Concat(argList) == Fragments(LightsOptions(state, brightnessPercent, brightnessStep, rgbww))
  {
    argList := [];
    ghost var fs: seq<Field> := [];
    if state {
      if brightnessPercent.Some? {
        var f := Field("brightness_pct", DecimalString(brightnessPercent.value), false);
        AppendField(argList, fs, f);
        argList := argList + [Fragment(f)];
      }
      assert [] + NumberField("brightness_pct", brightnessPercent) == NumberField("brightness_pct", brightnessPercent);
      fs := NumberField("brightness_pct", brightnessPercent);
      if brightnessStep.Some? {
        var f := Field("brightness_step", DecimalString(brightnessStep.value), false);
        AppendField(argList, fs, f);
        argList := argList + [Fragment(f)];
      }
      assert brightnessStep.None? ==> fs + NumberField("brightness_step", brightnessStep) == fs;
      fs := fs + NumberField("brightness_step", brightnessStep);
      if rgbww.Some? {
        var f := Field("rgbww", RgbwwString(rgbww.value), true);
        AppendField(argList, fs, f);
        argList := argList + [Fragment(f)];
      }
      assert rgbww.None? ==> fs + RgbwwField(rgbww) == fs;
      fs := fs + RgbwwField(rgbww);
    }
    assert fs == LightsOptions(state, brightnessPercent, brightnessStep, rgbww);
  }

  /**
   * `lights(state, brightness_percent, brightness_step, rgbww)`: the argument
   * list of `hass-cli service call light.turn_on|light.turn_off --arguments ...`.
   */
  method Lights(state: bool, brightnessPercent: Option<int>, brightnessStep: Option<int>, rgbww: Option<Rgbww>)
    returns (argv: seq<string>)
    ensures |argv| == 6
    ensures argv[0] == "hass-cli" && argv[1] == "service" && argv[2] == "call" && argv[4] == "--arguments"
    ensures argv[3] == (if state then "light.turn_on" else "light.turn_off")
    ensures argv[5] == LightsArguments(state, brightnessPercent, brightnessStep, rgbww)
  {
    var argList := OptionFragments(state, brightnessPercent, brightnessStep, rgbww);
    var extraArgs := Concat(argList);
    var service := "light.turn_" + OnOff(state);
    var arguments := "entity_id=" + LightsEntityId + extraArgs;
    LightsEntityFieldText();
    LightsVerb(state);
    argv := ["hass-cli", "service", "call", service, "--arguments", arguments];
  }

  /** The service a `lights` call names: `light.turn_on` or `light.turn_off`, by the state. */
  lemma LightsVerb(state: bool)
    ensures "light.turn_" + OnOff(state) == (if state then "light.turn_on" else "light.turn_off")
  {
  }

  /**
   * The `hass-cli state turn_on|turn_off <entity>` argument list shared by
   * `cringe_alert` and `disco_mode`.
   */
  function StateToggle(state: bool, entity: string): (argv: seq<string>)
    ensures |argv| == 4
    ensures argv[0] == "hass-cli" && argv[1] == "state" && argv[3] == entity
    ensures argv[2] == "turn_on" <==> state
    ensures argv[2] == "turn_off" <==> !state
  {
    ["hass-cli", "state", "turn_" + OnOff(state), entity]
  }

  /** Only the verb of a toggle depends on the requested state. */
  lemma ToggleDiffersOnlyInVerb(entity: string)
    ensures forall i :: 0 <= i < 4 && i != 2 ==> StateToggle(true, entity)[i] == StateToggle(false, entity)[i]
    ensures StateToggle(true, entity)[2] != StateToggle(false, entity)[2]
  {
  }

  /** `cringe_alert(state)`: runs or stops the cringe-alert script. */
  function CringeAlert(state: bool): (argv: seq<string>)
    ensures |argv| == 4 && argv[..2] == ["hass-cli", "state"]
    ensures argv[3] == "script.cringe_alert"
    ensures argv[2] == (if state then "turn_on" else "turn_off")
  {
    StateToggle(state, "script.cringe_alert")
  }

  /** `disco_mode(state)`: switches the disco-mode input boolean. */
  function DiscoMode(state: bool): (argv: seq<string>)
    ensures |argv| == 4 && argv[..2] == ["hass-cli", "state"]
    ensures argv[3] == "input_boolean.disco_mode"
    ensures argv[2] == (if state then "turn_on" else "turn_off")
  {
    StateToggle(state, "input_boolean.disco_mode")
  }

  /**
   * The fields `play_music` sends, in order: the Spotify player, the playlist
   * URL, the content type, and a second `entity_id`, the player
   * `media_player.spotify_emil`.
   */
  const PlayMusicFields: seq<Field> := [
    Field("entity_id", "media_player.spotify", false),
    Field("media_content_id", SpotifyPlaylistUrl, false),
    Field("media_content_type", "playlist", false),
    Field("entity_id", "media_player.spotify_emil", false)
  ]

  lemma PlainAppend(a: string, b: string)
    requires Plain(a) && Plain(b)
    ensures Plain(a + b)
  {
  }

  lemma SpotifyHostPlain()
    ensures Plain(SpotifyHost)
  {
  }

  lemma PlaylistIdPlain()
    ensures Plain(PlaylistId)
  {
  }

  lemma ShareIdPlain()
    ensures Plain(ShareId)
  {
  }

  lemma SpotifyPlaylistUrlPlain()
    ensures Plain(SpotifyPlaylistUrl)
  {
    SpotifyHostPlain();
    PlaylistIdPlain();
    ShareIdPlain();
    assert Plain("/playlist/") && Plain("?si=");
    PlainAppend(SpotifyHost, "/playlist/");
    PlainAppend(SpotifyHost + "/playlist/", PlaylistId);
    PlainAppend(SpotifyHost + "/playlist/" + PlaylistId, "?si=");
    PlainAppend(SpotifyHost + "/playlist/" + PlaylistId + "?si=", ShareId);
  }

  lemma PlayMusicKeysPlain()
    ensures Plain("entity_id") && Plain("media_content_id") && Plain("media_content_type")
  {
  }

  lemma PlayMusicFieldsSeparable()
    ensures forall i :: 0 <= i < |PlayMusicFields| ==> Separable(PlayMusicFields[i])
  {
    SpotifyPlaylistUrlPlain();
    PlayMusicKeysPlain();
    assert Plain("media_player.spotify") && Plain("playlist");
    assert Plain("media_player.spotify_emil");
  }

  /**
   * `play_music()`: the same argument list on every call, whose arguments
   * read back as the four fields of `PlayMusicFields`, in order.
   */
  function PlayMusic(): (argv: seq<string>)
    ensures |argv| == 6
    ensures argv[..5] == ["hass-cli", "service", "call", "media_player.play_media", "--arguments"]
    ensures SplitFields(argv[5], false, "") == Meanings(PlayMusicFields)
  {
    PlayMusicFieldsSeparable();
    SplitArguments(PlayMusicFields[0], PlayMusicFields[1..]);
    assert [Meaning(PlayMusicFields[0])] + Meanings(PlayMusicFields[1..]) == Meanings(PlayMusicFields);
    ["hass-cli", "service", "call", "media_player.play_media", "--arguments",
     Rendered(PlayMusicFields[0]) + Fragments(PlayMusicFields[1..])]
  }

  /** The arguments of `play_music` name `entity_id` twice, the Spotify player first. */
  lemma PlayMusicNamesTwoPlayers()
    ensures var fields := SplitFields(PlayMusic()[5], false, "");
      |fields| == 4
      && fields[0] == Meaning(Field("entity_id", "media_player.spotify", false))
      && fields[3] == Meaning(Field("entity_id", "media_player.spotify_emil", false))
  {
  }
}
