# rood: terminal output manager and platform tables, in Dafny

This project models the terminal output manager of the `rood` support library
(`src/cli/output.rs`) and the two enum/string conversion tables for operating systems
(`src/sys/platform.rs`) and processor architectures (`src/sys/architecture.rs`), and proves
properties of them.

- `text.dfy` (module `Text`): the two standard-library string operations the output manager
  uses to read answers, `str::trim` (white space as Rust's `char::is_whitespace` defines it,
  the Unicode White_Space characters; a forward scan for the start, then a backward scan for
  the end) and `str::to_ascii_lowercase`.
- `output.dfy` (module `Output`): the prefix markers, `make_padding` (a method with the same
  loop, proved against the function `Padding`), and `OutputManager` as an immutable value
  `(verbose, padding)` whose `new`, `push` and `with_padding` return fresh values. Standard
  output is a `Stdout` object: `isTty` stands for `atty::is(Stream::Stdout)`, `paint` for the
  colouring library, and `log` records every write in order. The channel methods (`Step`,
  `Progress`, `Success`, `Debug`, `Error`) and the prompts append to that log; what a prompt
  reads, and whether the flush before it succeeds, are parameters of type `IoResult`.
- `platform.dfy` (module `Platforms`): `Platform`, `detect` over the three `cfg!` flags it
  inspects, `value`, `Display` and `From<&str>`.
- `architecture.dfy` (module `Architectures`): `Architecture`, `detect` over the
  `std::env::consts::ARCH` string, `value` (the list of names), `Display` (the first name)
  and `From<&str>`.

`Architecture` has three variants (Amd64, ARM and Unknown), and both `From` implementations
match exact names only.

## Model

| member | source | states |
|---|---|---|
| `Output.Padding` | src/cli/output.rs:15-25 | the indentation for depth `n` is `4*n` characters repeating the unit (a bar and three spaces) when `n > 0`, and empty when `n <= 0` |
| `Output.PaddingRepeatsUnit` | src/cli/output.rs:15-25 | every character of the indentation is the unit's character at the same position modulo 4 |
| `Output.PaddingAdditive` | src/cli/output.rs:15-25 | for non-negative depths `a` and `b`, the indentation for depth `a + b` is that for `a` followed by that for `b` |
| `Output.MakePadding` | src/cli/output.rs:15-25 | the string built by the loop is the indentation for the given depth, of length `4*length` or 0 |
| `Output.OutputManager.New` | src/cli/output.rs:62-67 | a new manager has the given verbosity and depth 0 |
| `Output.OutputManager.Push` | src/cli/output.rs:71-76 | the derived manager is one level deeper and keeps the verbosity |
| `Output.OutputManager.WithPadding` | src/cli/output.rs:80-85 | the derived manager has the given depth (negative ones included) and keeps the verbosity |
| `Output.PushPushIsWithPadding` | src/cli/output.rs:71-85 | two pushes give the same manager as re-padding two levels deeper |
| `Output.PushIndentsOneUnit` | src/cli/output.rs:71-97 | for a manager at depth 0 or more, on a terminal, a line printed through the pushed manager is the parent's line with one more indentation unit in front |
| `Output.OutputManager.Silenced` | src/cli/output.rs:88-90 | a message is dropped exactly when its channel is verbose-only and the manager is not verbose (the same test opens `print_sameline`) |
| `Output.OutputManager.Line` | src/cli/output.rs:92-98 | off a terminal the written text is the message; on one it starts with the indentation and ends, after the marker and a space, with the coloured message (as `print_sameline` writes it too) |
| `Output.OutputManager.Print` | src/cli/output.rs:87-99 | nothing is written for a verbose-only message of a quiet manager; otherwise one entry: the bare message and a newline off a terminal, indentation + marker + space + coloured message + newline on one |
| `Output.OutputManager.PrintSameline` | src/cli/output.rs:101-113 | as `Print`, without the newline |
| `Output.PipedLineIsBare` | src/cli/output.rs:92-94 | off a terminal the written text is the message alone, whatever the depth, marker or colour |
| `Output.OutputManager.Step` | src/cli/output.rs:116-118 | exactly one line, yellow, marked `+`, whatever the verbosity |
| `Output.OutputManager.Progress` | src/cli/output.rs:121-123 | exactly one line, uncoloured, with no marker: on a terminal indentation + space + message |
| `Output.OutputManager.Success` | src/cli/output.rs:126-128 | exactly one line, green, marked `+`, whatever the verbosity |
| `Output.OutputManager.Debug` | src/cli/output.rs:132-134 | a quiet manager writes nothing; a verbose one writes one blue line marked `-` |
| `Output.OutputManager.Error` | src/cli/output.rs:137-139 | exactly one line, red, marked `!`, whatever the verbosity |
| `Output.StepAtDepthTwo` | src/cli/output.rs:116-118 | a step `"build"` at depth 2 on a terminal reads two indentation units, `+` and a space, followed by the yellow message |
| `Output.DebugAtDepthZero` | src/cli/output.rs:132-134 | a verbose debug `"cache miss"` at depth 0 on a terminal reads `"- "` followed by the blue message |
| `Output.OutputManager.Prompt` | src/cli/output.rs:143-150 | writes the blue `?` question without newline, whatever the verbosity; a failed flush or read is returned, otherwise the trimmed line |
| `Output.OutputManager.PromptYesNo` | src/cli/output.rs:154-178 | writes the question followed by `" [Y/n] - "` or `" [y/N] - "` by the default; failures are returned, otherwise the answer derived from the line |
| `Output.OutputManager.PromptPassword` | src/cli/output.rs:182-188 | writes the question; a failed flush is returned, otherwise whatever the masked read gave, untrimmed |
| `Output.PickYesNo` | src/cli/output.rs:172-177 | the answer differs from the default only when the trimmed, lowered line is `"n"` (default yes) or `"y"` (default no); a blank line keeps the default |
| `Output.LoneAnswer` | src/cli/output.rs:172-177 | the trimmed, lowered line is the one letter exactly when the line is that letter, in either case, amid white space |
| `Output.PickYesNoMeaning` | src/cli/output.rs:172-177 | with default yes the answer is no iff the line is a lone `n`/`N` amid white space; with default no it is yes iff the line is a lone `y`/`Y`; every other line gives the default |
| `Output.DefaultYesRefused` | src/cli/output.rs:172-174 | with default yes, `"n"`, `"N\n"` and `" n "` say no |
| `Output.DefaultYesKept` | src/cli/output.rs:172-174 | with default yes, `""`, `"y"` and `"anything"` say yes |
| `Output.DefaultNoAccepted` | src/cli/output.rs:172-177 | with default no, `"y"`, `"Y\n"` and `" y "` say yes |
| `Output.DefaultNoKept` | src/cli/output.rs:172-177 | with default no, `""`, `"n"` and `"maybe"` say no |
| `Text.Trim` | src/cli/output.rs:149 | the trimmed line is no longer than the line and neither starts nor ends with white space |
| `Text.TrimPosition` | src/cli/output.rs:149 | the trimmed line is the part of the line that starts after its leading white space, and only white space follows it |
| `Text.TrimEmptyIffBlank` | src/cli/output.rs:149 | the trimmed line is empty exactly when the line is all white space |
| `Text.TrimOfPadded` | src/cli/output.rs:149 | white space, a text not starting or ending with white space, white space: trims to that text |
| `Text.TrimIdempotent` | src/cli/output.rs:149 | trimming a trimmed line changes nothing |
| `Text.ToAsciiLowercase` | src/cli/output.rs:172 | same length; `A`..`Z` become `a`..`z`, every other character is kept |
| `Text.LowercaseIsLetter` | src/cli/output.rs:172 | a string lowers to a one-letter string exactly when it is that letter in lower or upper case |
| `Platforms.Platform.Detect` | src/sys/platform.rs:17-27 | the windows flag gives Windows whatever else is set; the unix flag without windows gives Linux even with the `macos` option set; the `macos` option alone gives Darwin; nothing set gives Unknown |
| `Platforms.Platform.Value` | src/sys/platform.rs:28-35 | every name is a non-empty lower-case word, and `From` maps it back to its platform |
| `Platforms.ValueInjective` | src/sys/platform.rs:28-35 | distinct platforms have distinct names |
| `Platforms.Platform.Display` | src/sys/platform.rs:37-41 | the display of a platform is its name, and `From` parses the display back to the same platform |
| `Platforms.Platform.From` | src/sys/platform.rs:43-51 | `"windows"`, `"darwin"`, `"linux"` give their platforms, every other string gives Unknown |
| `Platforms.FromIsCaseSensitive` | src/sys/platform.rs:43-51 | `"Linux"`, `"WINDOWS"`, `"macos"` and `""` give Unknown |
| `Platforms.MacosDetectedAsLinux` | src/sys/platform.rs:17-27 | a macOS target (unix flag set, no `macos` option, `target_os` `"macos"`) is a built-in configuration and is detected as Linux |
| `Platforms.DarwinUnreachable` | src/sys/platform.rs:17-27 | no configuration the compiler produces by itself is detected as Darwin, since the `macos` option is never set |
| `Platforms.Platform.DetectByTargetOs` | src/sys/platform.rs:17-27 | detection with `target_os = "macos"` tested before the unix flag: Windows by its flag, Darwin exactly for non-Windows macOS targets, Linux for other unix targets, otherwise Unknown |
| `Platforms.TargetOsDetectsDarwin` | src/sys/platform.rs:17-27 | on built-in configurations the corrected detection gives Darwin exactly for macOS, Linux for Linux and Windows for Windows; a macOS target displays as `"darwin"` |
| `Architectures.Architecture.Detect` | src/sys/architecture.rs:20-26 | `"x86_64"` gives Amd64, `"arm"` gives ARM, anything else Unknown; a known result has the detected string among its names |
| `Architectures.Architecture.Value` | src/sys/architecture.rs:28-38 | every architecture has at least one name and no name is empty |
| `Architectures.AliasesDisjoint` | src/sys/architecture.rs:28-38 | no name belongs to two architectures |
| `Architectures.Architecture.Display` | src/sys/architecture.rs:41-45 | the display is a non-empty name of the architecture, so `first().unwrap()` cannot fail; `From` maps it back except for ARM |
| `Architectures.Architecture.From` | src/sys/architecture.rs:47-53 | only `"amd64"` gives Amd64; every other string gives Unknown, and no string gives ARM |
| `Architectures.FromIgnoresAliases` | src/sys/architecture.rs:47-53 | `"x64"`, `"x86_64"` and `"arm"` give Unknown |
| `Architectures.ArmRoundTripFails` | src/sys/architecture.rs:41-53 | ARM's displayed name `"arm"` parses to Unknown |
| `Architectures.Architecture.FromAlias` | src/sys/architecture.rs:28-38 | a reverse lookup among all names: every name of Amd64 or ARM gives that architecture, anything else Unknown |
| `Architectures.FromAliasAcceptsEveryName` | src/sys/architecture.rs:28-38 | the reverse lookup maps every name of an architecture to that architecture |
| `Architectures.FromAliasRoundTrip` | src/sys/architecture.rs:41-53 | the reverse lookup parses the displayed name of every architecture back to it |

## Left out

- `OutputManager::clear` (src/cli/output.rs:190-212): it runs the `clear` or `cls` command, a child process, and is not modelled.
- Terminal detection (`atty::is`) is the `isTty` constant of the `Stdout` object; it is not re-queried between writes.
- Colour: the ANSI codes of the `colored` crate are the uninterpreted `paint` function; only the fact that an uncoloured string is written as it is, is modelled.
- `stdout().flush()`, `stdin().read_line` and `rpassword::read_password` are parameters of the prompts (`IoResult`), and an `io::Error` is known only by its message; prompts do not consume from a modelled input stream.
- `Output.OutputManager.Push`: requires the depth to be below `i32::MAX`; the overflow that panics in a debug build and wraps in a release build is not modelled.
- A failed write to standard output (a closed pipe, for instance) makes `println!` and `print!` (src/cli/output.rs:94,97,108,111) panic; `Stdout.Write` always succeeds, so that panic is not modelled.
- Interleaving of output from several threads is not modelled.
- The `Cause`/`Error` taxonomy (src/error.rs), desktop notifications (src/sys/notify.rs), the file helpers (src/sys/file.rs) and the serde derives are not part of this model.

## Findings

| source | as written | input that shows it | evidently intended | confidence | as-written member | corrected member |
|---|---|---|---|---|---|---|
| src/sys/architecture.rs:47-53 | `From<&str>` recognises only `"amd64"` | `"arm"`, the display of ARM, parses to Unknown (so do `"x64"` and `"x86_64"`) | a lookup among all names listed by `value`, so that every displayed name parses back | medium, not executed | `Architectures.ArmRoundTripFails` | `Architectures.FromAliasRoundTrip` |
| src/sys/platform.rs:17-27 | Darwin is chosen by `cfg!(macos)`, a configuration option the compiler never sets (the built-in test is `target_os = "macos"`), and only after the unix flag | a macOS target sets the unix flag and `target_os = "macos"` but not `macos`, and is detected as Linux; no built-in target is Darwin | a macOS target is Darwin: `target_os = "macos"` tested before the unix flag | medium, not executed | `Platforms.MacosDetectedAsLinux` | `Platforms.TargetOsDetectsDarwin` |

The as-written `From` and `Detect` stay the model of the source; nothing else in the model
depends on either, so the corrected `FromAlias` and `DetectByTargetOs` stand beside them.
