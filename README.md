# Moe Moe Secretary: settings and speech bubble

A Dafny model of two parts of the desktop companion application:

- **Settings** (`Settings.java`): the application's configuration. On first
  use it builds one `Properties` map from the properties file bundled with the
  application and then from the user's `config/config.properties`, creating
  the `config` folder and copying the bundled file there when the user has
  none. The map is cached until `reload()`. Typed accessors (colour, `int`,
  `long`, `boolean`, `String`, string list, `int` list) share one lookup
  rule: an absent key gives the default, or an error when the default is
  `null`; a present value goes through a converter whose exception escapes
  and whose `null` gives the default. The public getters name a key and a
  default each.
- **Baloon** (`Baloon.java`): the speech bubble, a label placed relative to the
  host window from the `baloon.*` settings. It can be shown and hidden, reports
  a desired rectangle three times the configured height, and paints a rounded
  background under its text, enabling high-quality rendering before or after
  the fill depending on two flags.

Files:

- `wrappers.dfy`: `Option` (Java's `null`) and `Result` (Java's exceptions).
- `java_lang.dfy`: the Java library behaviour the core relies on: 32-bit
  `int` wrap-around, `/ 2` rounding toward zero, `String.trim`,
  `String.split` on a one-character delimiter, `Integer.parseInt`,
  `Long.parseLong` and `Boolean.parseBoolean`.
- `settings.dfy`: the layered load, the cache as a class, the lookup rule,
  the converters, the typed accessors and every public getter.
- `baloon.dfy`: the bubble's settings reads, its geometry, its paint as a
  trace of drawing events, and the widget as a class.

The user file does not replace the bundled layer: both are loaded into the
same `Properties` map (`Settings.java:40-48`), so a key the user file leaves
out keeps its bundled value (`Settings.LoadOverrideWins`).

Without a user file, a `config` folder that cannot be created is not an
error: `get()` returns the bundled map. Once the folder exists, a failed copy
of the bundled file makes `get()` throw (`Settings.LoadWithoutOverride`).

Paint is modelled as the sequence of events it causes on the graphics context
(`Entities.Event`): enabling high quality, filling the rounded background, and
drawing the label's text. A settings error during paint ends the trace.

## Model

| member | source | states |
|---|---|---|
| JavaLang.Wrap32 | src/main/java/com/kitsunecode/mms/core/entities/Baloon.java:48 | an `int` result equals the mathematical one whenever that fits in 32 bits, and differs from it by a multiple of 2^32 otherwise |
| JavaLang.Half | src/main/java/com/kitsunecode/mms/core/entities/Baloon.java:32 | `a / 2` rounds toward zero: twice the result is `a` or one closer to zero |
| JavaLang.TrimStart | src/main/java/com/kitsunecode/mms/core/settings/Settings.java:91 | a suffix of the input, all of whose removed characters are trimmable, starting with a non-trimmable character unless empty |
| JavaLang.TrimEnd | src/main/java/com/kitsunecode/mms/core/settings/Settings.java:91 | a prefix of the input, all of whose removed characters are trimmable, ending with a non-trimmable character unless empty |
| JavaLang.Trim | src/main/java/com/kitsunecode/mms/core/settings/Settings.java:91 | `String.trim`: no longer than the input, and neither end of the result is a character up to U+0020 |
| JavaLang.TrimAtOfParts | src/main/java/com/kitsunecode/mms/core/settings/Settings.java:91 | a trimmable prefix and a trimmable tail around a string without trimmable ends make that string the trim |
| JavaLang.TrimRemovesTrimmableEnds | src/main/java/com/kitsunecode/mms/core/settings/Settings.java:91 | `trim` removes exactly the leading and trailing characters up to U+0020 and leaves a string without such ends |
| JavaLang.TrimOfTrimmed | src/main/java/com/kitsunecode/mms/core/settings/Settings.java:91 | a string without trimmable ends is its own trim |
| JavaLang.TrimIdempotent | src/main/java/com/kitsunecode/mms/core/settings/Settings.java:117 | trimming twice equals trimming once |
| JavaLang.Fields | src/main/java/com/kitsunecode/mms/core/settings/Settings.java:86 | the fields between delimiters: at least one, none containing the delimiter, and joined back they give the input |
| JavaLang.DropTrailingEmpty | src/main/java/com/kitsunecode/mms/core/settings/Settings.java:86 | a prefix of the input whose last element is not empty, every dropped element being empty |
| JavaLang.Split | src/main/java/com/kitsunecode/mms/core/settings/Settings.java:86 | `split` with limit 0: no delimiter gives the input alone; otherwise the fields up to the last non-empty one, trailing empty fields dropped; no part contains the delimiter |
| JavaLang.FieldsOfJoin | src/main/java/com/kitsunecode/mms/core/settings/Settings.java:86 | round trip: splitting delimiter-free pieces joined with the delimiter gives the pieces back |
| JavaLang.SplitKeepsUpToLastNonEmpty | src/main/java/com/kitsunecode/mms/core/settings/Settings.java:86 | when the delimiter occurs, the split is exactly the fields with all trailing empty ones removed |
| JavaLang.SplitFourParts | src/main/java/com/kitsunecode/mms/core/settings/Settings.java:86-87 | "10,20,30,255" splits into four parts |
| JavaLang.SplitThreeParts | src/main/java/com/kitsunecode/mms/core/settings/Settings.java:86-87 | "10,20,30" splits into three parts |
| JavaLang.FieldsWithTrailingEmpty | src/main/java/com/kitsunecode/mms/core/settings/Settings.java:86 | "1,2,,," has five fields, the last three empty |
| JavaLang.SplitDropsTrailingEmpty | src/main/java/com/kitsunecode/mms/core/settings/Settings.java:86 | "1,2,,," splits into "1" and "2" |
| JavaLang.ParseInt | src/main/java/com/kitsunecode/mms/core/settings/Settings.java:97 | `Integer.parseInt` succeeds exactly on an optional sign followed by at least one decimal digit whose value lies in the `int` range, and returns that value |
| JavaLang.ParseLong | src/main/java/com/kitsunecode/mms/core/settings/Settings.java:101 | `Long.parseLong`: as for `int`, over the `long` range |
| JavaLang.ParseBoolean | src/main/java/com/kitsunecode/mms/core/settings/Settings.java:105 | `Boolean.parseBoolean`: true exactly for the four letters "true" in any case; it never fails |
| JavaLang.NatDigits | src/main/java/com/kitsunecode/mms/core/settings/Settings.java:97 | the decimal digits of a natural number, without leading zeros, whose value is that number |
| JavaLang.ParseIntOfToDecimal | src/main/java/com/kitsunecode/mms/core/settings/Settings.java:97 | round trip: every `int` printed in decimal parses back to itself |
| JavaLang.ParseLongOfToDecimal | src/main/java/com/kitsunecode/mms/core/settings/Settings.java:101 | round trip: every `long` printed in decimal parses back to itself |
| JavaLang.ParseRejectsUntrimmed | src/main/java/com/kitsunecode/mms/core/settings/Settings.java:121 | the parsers do not trim: a leading or trailing blank or control character is a number format error |
| JavaLang.ParseIntExamples | src/main/java/com/kitsunecode/mms/core/settings/Settings.java:97 | "10", "20", "30" and "255" parse to their values |
| JavaLang.ChannelTexts | src/main/java/com/kitsunecode/mms/core/settings/Settings.java:91 | the four channel texts of "10,20,30,255", trimmed and parsed, give 10, 20, 30 and 255 |
| Settings.AsMap | src/main/java/com/kitsunecode/mms/core/settings/Settings.java:26 | the map `Properties.load` leaves: the last entry's key holds the last entry's value |
| Settings.AsMapLastEntryWins | src/main/java/com/kitsunecode/mms/core/settings/Settings.java:26 | loading entries one by one: a key is present exactly when some entry names it, with the value of the last such entry |
| Settings.Load | src/main/java/com/kitsunecode/mms/core/settings/Settings.java:34-64 | a load with an empty cache returns the map it caches or fails with the load error; the override file changes only when absent, to a copy of the bundle |
| Settings.LoadOverrideWins | src/main/java/com/kitsunecode/mms/core/settings/Settings.java:40-49 | with a user file, its keys take its values, bundled-only keys keep theirs, and no other key appears |
| Settings.LoadWithoutOverride | src/main/java/com/kitsunecode/mms/core/settings/Settings.java:52-61 | without a user file the configuration is the bundle, or empty when there is none; the load fails exactly when there is a bundle, the folder exists or is created, and the copy fails (a failed `mkdir` is not an error) |
| Settings.LoadFailureKeepsBundle | src/main/java/com/kitsunecode/mms/core/settings/Settings.java:45-48 | an unreadable user file is an error, and the bundled layer already loaded stays cached |
| Settings.BootstrapCopyIsStable | src/main/java/com/kitsunecode/mms/core/settings/Settings.java:57-61 | the first run writes the bundle out as the user file, and loading again from that disk gives the same configuration |
| Settings.Settings.constructor | src/main/java/com/kitsunecode/mms/core/settings/Settings.java:23 | the cache starts empty |
| Settings.Settings.LoadEntries | src/main/java/com/kitsunecode/mms/core/settings/Settings.java:25-27 | `Properties.load` puts each entry in turn: the cached map becomes the old one overridden by the entries, last entry winning |
| Settings.Settings.Get | src/main/java/com/kitsunecode/mms/core/settings/Settings.java:29-65 | a cached map is returned without touching the disk; otherwise the load's map is cached, even when the load then fails, and its result returned |
| Settings.Settings.Reload | src/main/java/com/kitsunecode/mms/core/settings/Settings.java:67-69 | the cache is dropped |
| Settings.Settings.Lookup | src/main/java/com/kitsunecode/mms/core/settings/Settings.java:71-82 | a lookup loads first; a load failure escapes, otherwise the lookup rule applies to the cached map |
| Settings.GetProperty | src/main/java/com/kitsunecode/mms/core/settings/Settings.java:71-82 | an absent key gives the default, or the missing-property error when the default is null; a converter error escapes; a converter null gives the default; a converted value is returned |
| Settings.ParseAll | src/main/java/com/kitsunecode/mms/core/settings/Settings.java:91 | every element parses, in order, or the error names the first element that does not |
| Settings.TrimAll | src/main/java/com/kitsunecode/mms/core/settings/Settings.java:117 | every element trimmed, same length |
| Settings.ColorOfParts | src/main/java/com/kitsunecode/mms/core/settings/Settings.java:87-92 | a part count other than four is null; four parts give a colour exactly when each trimmed part parses, channels in order red, green, blue, alpha; any error is a number format error |
| Settings.IntConverter | src/main/java/com/kitsunecode/mms/core/settings/Settings.java:97 | `Integer::parseInt`: succeeds exactly when the text parses, with that value, and is a number format error on that text otherwise |
| Settings.LongConverter | src/main/java/com/kitsunecode/mms/core/settings/Settings.java:101 | `Long::parseLong`: as for `int`, over the `long` range |
| Settings.BooleanConverter | src/main/java/com/kitsunecode/mms/core/settings/Settings.java:105 | `Boolean::parseBoolean`: never null, never an error, true exactly when the text is "true" in any case |
| Settings.StringConverter | src/main/java/com/kitsunecode/mms/core/settings/Settings.java:113 | the identity: the text as written, never null |
| Settings.StringListConverter | src/main/java/com/kitsunecode/mms/core/settings/Settings.java:117 | never fails; one element per part of the split, each the part trimmed |
| Settings.IntListConverter | src/main/java/com/kitsunecode/mms/core/settings/Settings.java:121 | succeeds exactly when every part of the split parses as it stands, with one value per part in order; otherwise the number format error of the first part that does not parse |
| Settings.ColorConverter | src/main/java/com/kitsunecode/mms/core/settings/Settings.java:85-93 | a value that does not split into four parts is null; four parts give a colour exactly when each trimmed part parses, with those channels; any error is a number format error |
| Settings.GetColor | src/main/java/com/kitsunecode/mms/core/settings/Settings.java:84-94 | absent key: default or missing-property error; a value not of four parts gives the default; four parts give a colour exactly when each trimmed part parses, with those channels; with a default the result is never null; an error is a number format error on a four-part value |
| Settings.GetInt | src/main/java/com/kitsunecode/mms/core/settings/Settings.java:96-98 | absent key gives the default; a present value succeeds exactly when it parses, with its value, and otherwise is a number format error on that text |
| Settings.GetLong | src/main/java/com/kitsunecode/mms/core/settings/Settings.java:100-102 | as for `int`, over the `long` range |
| Settings.GetBool | src/main/java/com/kitsunecode/mms/core/settings/Settings.java:104-106 | never fails; absent key gives the default; a present value is true exactly when it equals "true" ignoring case |
| Settings.GetString | src/main/java/com/kitsunecode/mms/core/settings/Settings.java:112-114 | absent key: default or missing-property error; a present value is returned as written |
| Settings.GetStringList | src/main/java/com/kitsunecode/mms/core/settings/Settings.java:116-118 | absent key: default or missing-property error; a present value gives the split on the divider, same number of elements, each trimmed |
| Settings.GetIntList | src/main/java/com/kitsunecode/mms/core/settings/Settings.java:120-122 | absent key: default or missing-property error; a present value succeeds exactly when every untrimmed part parses, with those values, and otherwise fails with the number format error of the first part that does not parse |
| Settings.ColorOfFourChannels | src/main/java/com/kitsunecode/mms/core/settings/Settings.java:91-92 | four parts that parse give the colour with those channels, in order red, green, blue, alpha |
| Settings.PartsMakeColor | src/main/java/com/kitsunecode/mms/core/settings/Settings.java:91-92 | four parts whose trimmed texts parse make the colour of those four channels |
| Settings.PartsWithBadChannel | src/main/java/com/kitsunecode/mms/core/settings/Settings.java:91 | four parts of which any one does not parse make a number format error |
| Settings.ColorBadChannelThrows | src/main/java/com/kitsunecode/mms/core/settings/Settings.java:91 | four parts with one that does not parse is a number format error, not the default |
| Settings.ColorTrailingCommasDropped | src/main/java/com/kitsunecode/mms/core/settings/Settings.java:86-89 | "1,2,,," counts two parts and gives the default |
| Settings.ColorOfFourNumbers | src/main/java/com/kitsunecode/mms/core/settings/Settings.java:84-94 | "10,20,30,255" is the colour (10, 20, 30, 255) |
| Settings.ColorOfThreeNumbers | src/main/java/com/kitsunecode/mms/core/settings/Settings.java:86-89 | "10,20,30" gives the default, even a null one, without an error |
| Settings.IntRejectsText | src/main/java/com/kitsunecode/mms/core/settings/Settings.java:96-98 | text that is not a decimal number is an error, not the default |
| Settings.IntKeepsSpaces | src/main/java/com/kitsunecode/mms/core/settings/Settings.java:96-122 | " 5" is an error for `int` and `int[]`, but the string list trims it to "5" |
| Settings.EmptyValueIsOneElement | src/main/java/com/kitsunecode/mms/core/settings/Settings.java:116-122 | an empty value is one empty string for a string list and an error for an `int` list |
| Settings.BooleanExamples | src/main/java/com/kitsunecode/mms/core/settings/Settings.java:104-106 | "TRUE" and "tRuE" are true; "yes", " true" and "" are false |
| Settings.GetHighQualityString | src/main/java/com/kitsunecode/mms/core/settings/Settings.java:128-130 | absent `baloon.highQuality` gives the caller's default, or the missing-property error when that is null; a present value is returned as written |
| Settings.GetAdapter | src/main/java/com/kitsunecode/mms/core/settings/Settings.java:132-134 | absent `adapter` gives "Ship"; a present value is returned as written |
| Settings.GetWaifuName | src/main/java/com/kitsunecode/mms/core/settings/Settings.java:136-138 | absent `waifu.name` is the "Cannot find property" error: it has no default; a present value is returned as written |
| Settings.IsBaloonHighQualityText | src/main/java/com/kitsunecode/mms/core/settings/Settings.java:140-142 | never fails; absent `baloon.highQualityText` gives true; a present value gives `Boolean.parseBoolean` of it, true exactly for "true" in any case |
| Settings.GetBaloonYOffset | src/main/java/com/kitsunecode/mms/core/settings/Settings.java:144-146 | absent `baloon.yOffset` gives 300; a present value gives the `int` `Integer.parseInt` reads from it, and text it rejects is a number format error on that text |
| Settings.GetBaloonXOffset | src/main/java/com/kitsunecode/mms/core/settings/Settings.java:148-150 | absent `baloon.xOffset` gives 0; a present value gives the `int` `Integer.parseInt` reads from it, and text it rejects is a number format error on that text |
| Settings.GetBaloonWidth | src/main/java/com/kitsunecode/mms/core/settings/Settings.java:152-154 | absent `baloon.width` gives 400; a present value gives the `int` `Integer.parseInt` reads from it, and text it rejects is a number format error on that text |
| Settings.GetBaloonHeight | src/main/java/com/kitsunecode/mms/core/settings/Settings.java:156-158 | absent `baloon.height` gives 100; a present value gives the `int` `Integer.parseInt` reads from it, and text it rejects is a number format error on that text |
| Settings.GetBaloonFontSize | src/main/java/com/kitsunecode/mms/core/settings/Settings.java:160-162 | absent `baloon.fontSize` gives 15; a present value gives the `int` `Integer.parseInt` reads from it, and text it rejects is a number format error on that text |
| Settings.GetBaloonFont | src/main/java/com/kitsunecode/mms/core/settings/Settings.java:164-166 | absent `baloon.font` gives the caller's default, or the missing-property error when that is null; a present value is returned as written |
| Settings.GetBaloonBackground | src/main/java/com/kitsunecode/mms/core/settings/Settings.java:168-170 | absent `baloon.background` gives the caller's default, or the missing-property error when that is null; a value not of four comma-separated parts gives the default; four parts give a colour exactly when each trimmed part parses, with those channels, and a number format error otherwise |
| Settings.GetBaloonForeground | src/main/java/com/kitsunecode/mms/core/settings/Settings.java:172-174 | absent `baloon.foreground`, or a value not of four comma-separated parts, gives opaque white; four parts give a colour exactly when each trimmed part parses, with those channels; the only error is a number format error and the result is never null |
| Settings.GetWaifuHeight | src/main/java/com/kitsunecode/mms/core/settings/Settings.java:176-178 | absent `waifu.height` gives 800; a present value gives the `int` `Integer.parseInt` reads from it, and text it rejects is a number format error on that text |
| Settings.IsWaifuMirrored | src/main/java/com/kitsunecode/mms/core/settings/Settings.java:180-182 | never fails; absent `waifu.mirrored` gives false; a present value gives `Boolean.parseBoolean` of it, true exactly for "true" in any case |
| Settings.IsWaifuWelcomeEnabled | src/main/java/com/kitsunecode/mms/core/settings/Settings.java:184-186 | never fails; absent `waifu.welcome.enabled` gives true; a present value gives `Boolean.parseBoolean` of it, true exactly for "true" in any case |
| Settings.GetWaifuWelcomeDelay | src/main/java/com/kitsunecode/mms/core/settings/Settings.java:188-190 | absent `waifu.welcome.delay` gives 5000; a present value gives the `int` `Integer.parseInt` reads from it, and text it rejects is a number format error on that text |
| Settings.IsVoiceEnabled | src/main/java/com/kitsunecode/mms/core/settings/Settings.java:192-194 | never fails; absent `voice.enabled` gives true; a present value gives `Boolean.parseBoolean` of it, true exactly for "true" in any case |
| Settings.GetVoiceVolume | src/main/java/com/kitsunecode/mms/core/settings/Settings.java:196-198 | absent `voice.volume` gives 50; a present value gives the `int` `Integer.parseInt` reads from it, and text it rejects is a number format error on that text |
| Settings.IsDialogsEnabled | src/main/java/com/kitsunecode/mms/core/settings/Settings.java:200-202 | never fails; absent `dialogs.enabled` gives true; a present value gives `Boolean.parseBoolean` of it, true exactly for "true" in any case |
| Settings.IsDialogsOnClick | src/main/java/com/kitsunecode/mms/core/settings/Settings.java:204-206 | never fails; absent `dialogs.onClick` gives true; a present value gives `Boolean.parseBoolean` of it, true exactly for "true" in any case |
| Settings.IsDialogsOnIdle | src/main/java/com/kitsunecode/mms/core/settings/Settings.java:208-210 | never fails; absent `dialogs.onIdle` gives true; a present value gives `Boolean.parseBoolean` of it, true exactly for "true" in any case |
| Settings.GetDialogsBaloonNoVoiceDuration | src/main/java/com/kitsunecode/mms/core/settings/Settings.java:212-214 | absent `dialogs.baloon.noVoiceDuration` gives 3; a present value gives the `int` `Integer.parseInt` reads from it, and text it rejects is a number format error on that text |
| Settings.IsWaifuAlwaysOnTop | src/main/java/com/kitsunecode/mms/core/settings/Settings.java:216-218 | never fails; absent `waifu.alwaysOnTop` gives true; a present value gives `Boolean.parseBoolean` of it, true exactly for "true" in any case |
| Settings.GetBaloonFormatString | src/main/java/com/kitsunecode/mms/core/settings/Settings.java:220-222 | absent `baloon.formatString` gives "[[text]]"; a present value is returned as written |
| Settings.GetWaifuStartY | src/main/java/com/kitsunecode/mms/core/settings/Settings.java:224-226 | absent `waifu.startY` gives "auto"; a present value is returned as written |
| Settings.GetWaifuSkinIndex | src/main/java/com/kitsunecode/mms/core/settings/Settings.java:228-230 | absent `waifu.skinIndex` gives 0; a present value gives the `int` `Integer.parseInt` reads from it, and text it rejects is a number format error on that text |
| Settings.IsWaifuHighQuality | src/main/java/com/kitsunecode/mms/core/settings/Settings.java:232-234 | absent `waifu.highQuality` gives ""; a present value is returned as written |
| Settings.IsFloatingEnabled | src/main/java/com/kitsunecode/mms/core/settings/Settings.java:236-238 | never fails; absent `floating.enabled` gives true; a present value gives `Boolean.parseBoolean` of it, true exactly for "true" in any case |
| Settings.GetFloatingPixelPerStep | src/main/java/com/kitsunecode/mms/core/settings/Settings.java:240-242 | absent `floating.pixelPerStep` gives 1; a present value gives the `int` `Integer.parseInt` reads from it, and text it rejects is a number format error on that text |
| Settings.GetFloatingPixelRange | src/main/java/com/kitsunecode/mms/core/settings/Settings.java:244-246 | absent `floating.pixelRange` gives 300; a present value gives the `int` `Integer.parseInt` reads from it, and text it rejects is a number format error on that text |
| Settings.GetFloatingStepSleep | src/main/java/com/kitsunecode/mms/core/settings/Settings.java:248-250 | absent `floating.stepSleep` gives 16; a present value gives the `int` `Integer.parseInt` reads from it, and text it rejects is a number format error on that text |
| Settings.GetFloatingSwapSleep | src/main/java/com/kitsunecode/mms/core/settings/Settings.java:252-254 | absent `floating.swapSleep` gives 100; a present value gives the `int` `Integer.parseInt` reads from it, and text it rejects is a number format error on that text |
| Settings.GetDialogsIdleFrequency | src/main/java/com/kitsunecode/mms/core/settings/Settings.java:256-258 | absent `dialogs.idle.frequency` gives 60; a present value gives the `int` `Integer.parseInt` reads from it, and text it rejects is a number format error on that text |
| Settings.IsJumpOnClick | src/main/java/com/kitsunecode/mms/core/settings/Settings.java:260-262 | never fails; absent `jump.onClick` gives true; a present value gives `Boolean.parseBoolean` of it, true exactly for "true" in any case |
| Settings.GetJumpCount | src/main/java/com/kitsunecode/mms/core/settings/Settings.java:264-266 | absent `jump.count` gives 2; a present value gives the `int` `Integer.parseInt` reads from it, and text it rejects is a number format error on that text |
| Settings.GetJumpPixelPerStep | src/main/java/com/kitsunecode/mms/core/settings/Settings.java:268-270 | absent `jump.pixelPerStep` gives 5; a present value gives the `int` `Integer.parseInt` reads from it, and text it rejects is a number format error on that text |
| Settings.GetJumpSleep | src/main/java/com/kitsunecode/mms/core/settings/Settings.java:272-274 | absent `jump.stepSleep` gives 15; a present value gives the `int` `Integer.parseInt` reads from it, and text it rejects is a number format error on that text |
| Settings.GetJumpPixelRange | src/main/java/com/kitsunecode/mms/core/settings/Settings.java:276-278 | absent `jump.pixelRange` gives 40; a present value gives the `int` `Integer.parseInt` reads from it, and text it rejects is a number format error on that text |
| Settings.GetFloatingSwitchSleep | src/main/java/com/kitsunecode/mms/core/settings/Settings.java:280-282 | absent `floating.switchSleep` gives 10; a present value gives the `int` `Integer.parseInt` reads from it, and text it rejects is a number format error on that text |
| Settings.GetWaifuLanguage | src/main/java/com/kitsunecode/mms/core/settings/Settings.java:284-286 | absent `waifu.language` gives "Chinese"; a present value is returned as written |
| Settings.UseWaifuNativeLanguage | src/main/java/com/kitsunecode/mms/core/settings/Settings.java:288-290 | never fails; absent `waifu.language.useNative` gives false; a present value gives `Boolean.parseBoolean` of it, true exactly for "true" in any case |
| Entities.ReadGeometry | src/main/java/com/kitsunecode/mms/core/entities/Baloon.java:43-50 | the desired-size reads succeed exactly when width, x offset, y offset and height all convert, giving those values; otherwise the error is that of the first failing read in the order width, x offset, y offset, height |
| Entities.ReadWidgetSettings | src/main/java/com/kitsunecode/mms/core/entities/Baloon.java:26-41 | the constructor reads succeed exactly when the geometry, foreground and font-size reads do, giving the same geometry and the configured foreground, font family and font size (white, "Arial" and 15 when absent); the error that escapes is that of the first failing read in the order width, height, x offset, y offset, foreground, font size |
| Entities.DefaultGeometry | src/main/java/com/kitsunecode/mms/core/entities/Baloon.java:43-50 | without the placement keys the geometry is width 400, height 100, x offset 0, y offset 300 |
| Entities.DefaultSettings | src/main/java/com/kitsunecode/mms/core/entities/Baloon.java:26-41 | without the bubble's keys the constructor uses white text in 15-point Arial over that geometry |
| Entities.DesiredSize | src/main/java/com/kitsunecode/mms/core/entities/Baloon.java:43-50 | the desired rectangle exists exactly when the reads succeed, their error otherwise; it is the desired bounds of the geometry read: the shared x and y placement, the configured width and three times the configured height |
| Entities.PlacementX | src/main/java/com/kitsunecode/mms/core/entities/Baloon.java:32 | the left edge in `int` arithmetic: congruent modulo 2^32 to half the window width less half the bubble width plus the x offset |
| Entities.PlacementY | src/main/java/com/kitsunecode/mms/core/entities/Baloon.java:33 | the top edge in `int` arithmetic: congruent modulo 2^32 to the window height less the y offset |
| Entities.InitialBounds | src/main/java/com/kitsunecode/mms/core/entities/Baloon.java:28-33 | the constructor's bounds: the shared placement, the configured width and height |
| Entities.DesiredBounds | src/main/java/com/kitsunecode/mms/core/entities/Baloon.java:44-48 | the desired rectangle: the shared placement, the configured width, and a height congruent modulo 2^32 to three times the configured height |
| Entities.PlacementXFormula | src/main/java/com/kitsunecode/mms/core/entities/Baloon.java:32 | without overflow the left edge is half the window width less half the bubble width plus the x offset, unclamped |
| Entities.PlacementYFormula | src/main/java/com/kitsunecode/mms/core/entities/Baloon.java:33 | without overflow the top edge is the y offset above the window height |
| Entities.PlacementCentred | src/main/java/com/kitsunecode/mms/core/entities/Baloon.java:32 | the bubble is centred on the window's middle shifted by the x offset, to within a pixel |
| Entities.DesiredIsInitialWithTripleHeight | src/main/java/com/kitsunecode/mms/core/entities/Baloon.java:28-48 | the desired rectangle has the constructor's location and width and three times its height, in `int` arithmetic |
| Entities.DesiredSizeWorkedExample | src/main/java/com/kitsunecode/mms/core/entities/Baloon.java:43-50 | with defaults and an 800x600 window the desired rectangle is (200, 300, 400, 300) and the initial one (200, 300, 400, 100) |
| Entities.DesiredHeightOverflows | src/main/java/com/kitsunecode/mms/core/entities/Baloon.java:48 | a height of 0x30000000 gives a negative desired height, as Java's `int` multiplication does |
| Entities.BackgroundPaint | src/main/java/com/kitsunecode/mms/core/entities/Baloon.java:71 | the fill colour is the background setting, black when absent; a colour setting that fails to convert is its error |
| Entities.PaintSteps | src/main/java/com/kitsunecode/mms/core/entities/Baloon.java:65-78 | for any flag values: high quality enabled at most once; a background error carries that error and leaves just the quality step when the first flag is set, nothing otherwise; a good background gives high quality, fill, text under the first flag, fill, high quality, text under the text flag alone, and fill, text under neither |
| Entities.PaintTrace | src/main/java/com/kitsunecode/mms/core/entities/Baloon.java:59-79 | high quality is enabled at most once; the trace ends with the text exactly when the background converts, and otherwise is the quality step when `baloon.highQuality` is set and empty when not |
| Entities.PaintQualityRule | src/main/java/com/kitsunecode/mms/core/entities/Baloon.java:65-76 | high quality before the fill when the first flag is set, after it when only the text flag is set, never when neither |
| Entities.PaintDefaults | src/main/java/com/kitsunecode/mms/core/entities/Baloon.java:65-78 | with nothing configured: high quality, a black rounded rectangle over the whole bubble with arcs of 10, then the text |
| Entities.Baloon.constructor | src/main/java/com/kitsunecode/mms/core/entities/Baloon.java:26-41 | hidden; placed and sized from the settings; minimum size the configured size, maximum three times its height; foreground and font as configured, transparent background |
| Entities.Baloon.Toggle | src/main/java/com/kitsunecode/mms/core/entities/Baloon.java:52-55 | visibility becomes the argument; nothing else changes |
| Entities.Baloon.Paint | src/main/java/com/kitsunecode/mms/core/entities/Baloon.java:58-80 | hidden: no drawing and no change; visible: the height becomes the preferred height and the drawing is the paint trace at that size |

## Left out

- File and resource I/O: the bundled properties and the user file are given as the entries `Properties.load` would read from them, and the disk as a value (`Settings.Disk`) whose operations succeed or fail as it says. The text format of properties files (escapes, continuation lines, comments) is not modelled.
- An `IOException` while reading the bundled resource is not modelled: the bundled layer is either present and read in full or absent.
- A failed copy of the bundled file may leave a partial user file on disk; the model leaves the disk's file unchanged.
- The `System.out` messages of loading and of an invalid colour are left out.
- The settings are a static field in the source; the model makes them one `Settings.Settings` object whose methods take the bundle and the disk. Concurrent access is not modelled.
- `get(String, float)` and `get(String, double[], String)`: floating-point parsing is out of scope.
- Settings.GetStringList: `String.split` takes a regular expression; the model takes a one-character divider matched literally, so a longer divider or a metacharacter such as `|` is not modelled. No getter in the file calls the list accessors.
- Settings.GetIntList: the same one-character literal divider.
- JavaLang.ParseInt: `Integer.parseInt` also accepts non-ASCII Unicode digits; the model accepts the ASCII digits only.
- JavaLang.ParseLong: the same, for `Long.parseLong`.
- `Boolean.parseBoolean` is modelled with ASCII case folding only.
- Settings.ColorConverter: does not model the `IllegalArgumentException` that `new Color(r, g, b, a)` throws for a channel outside 0 to 255; any `int` channel is kept. Settings.GetColor inherits this.
- Swing: `setOpaque`, the text alignments, `setVisible` on the component, the layout's preferred-size computation (a parameter of `Entities.Baloon.Paint`), `Util.setHighQuality`'s rendering hints, the colours and geometry of `super.paint` (one `DrawText` event), and fractional coordinates of `RoundRectangle2D.Double`.
- The constructor reads the width and height several times; repeated reads of the same key give the same value, so `Entities.ReadWidgetSettings` reads each key once, keeping the order in which a key is first read and so the error that escapes first.
- The bubble's operations (`Entities`) read a configuration snapshot passed in rather than calling `Settings.get()`, so the load failure that the bubble's first settings read can raise is not modelled on the bubble's side; `Settings.Settings.Lookup` models it for a single lookup.
