# jelly, modelled in Dafny

jelly is a small Go logger. `NewLog(name)` checks and normalises a log name,
finds the user's home directory, tries to create `<home>/.jelly` when Stat
reports it missing (ignoring the outcome) and creates (truncating) the file
`<home>/.jelly/<name>`. `Info`, `Debug` and `Die` render their arguments, join them with a space after each one and
write one line `<file>:<line> <LEVEL> - <message>` tagged with the caller's
source location; `Die` then exits with status 1.

This project models the string handling of `jelly.go` and proves what it
guarantees:

- `wrappers.dfy` — `Option` and `Result`.
- `text.dfy` (module `Text`) — the parts of Go's `strings` package and of
  `fmt`'s `%d` the logger uses: `Contains`, `LastIndex` of one character,
  and decimal rendering of a line number with the function that reads it
  back.
- `jelly.dfy` (module `Jelly`) — `NewLog` as a function of the log name and
  a `Host` value holding the path separator (`os.PathSeparator`, a
  constant) and what each system call would report (home directory or
  lookup failure, what `os.Stat` says, whether `os.Mkdir` and `os.Create`
  succeed). It returns the result and the list
  of system calls it issues, so the order of the error checks can be
  stated. Then the base name of the caller's file, `stringify` as a method
  with a loop over a buffer proved against the function `Joined`, the line
  `write` hands to the log writer, and the three entry points. The
  function `ParseLine` reads a written line back into its fields, as a
  check that the format loses nothing.
- `jelly_examples.dfy` (module `JellyExamples`) — the usage shown in the
  package documentation, worked through the model.

Details of the code the model keeps:

- `.log` is appended only when the name does not contain `.log`
  anywhere. The code uses `strings.Contains`, so `app.log.old` and
  `x.logs` are left unchanged, and the name need not end with `.log`.
- The log writer is created with the date, time and UTC flags set
  (jelly.go:56), so every line begins with a timestamp. That prefix is not
  modelled.
- `os.Mkdir` is only called when `os.Stat` reports that the directory does
  not exist. Any other `os.Stat` error skips it. Its own result is never
  looked at.
- `Println` puts a space between the prefix and the message and ends the
  line with a newline. The message itself already ends with a space when
  there is at least one value. So a line is
  `<file>:<line> <LEVEL> - v1 v2 ... vn ` followed by a newline.

## Model

| member | source | states |
|---|---|---|
| Jelly.NormaliseName | jelly.go:32-34 | a name that contains `.log` is returned unchanged; any other name gets exactly `.log` appended; the result always contains `.log` |
| Jelly.NormaliseIdempotent | jelly.go:32-34 | normalising an already normalised name changes nothing |
| Jelly.BaseDir | jelly.go:41 | the base directory is the home directory, the separator, then `.jelly` |
| Jelly.LogPath | jelly.go:46 | the log path is the base directory, the separator, then the name, so it ends with the name |
| Jelly.NewLog | jelly.go:27-58 | an empty name fails with `ErrEmptyLogName` before any system call; otherwise the user is looked up first and a lookup failure is returned at once; success happens exactly when the name is non-empty, the user is known and the file is created, and then the Logger carries the normalised name and the path under `<home>/.jelly`; Stat on the base directory is the second call, and Mkdir is issued, on the base directory, exactly when Stat reports it missing; Create is the last call, and nothing else is issued; a creation failure returns `CreateFailed` with the log path |
| Jelly.UserLookupBeforeCreate | jelly.go:36-39 | when the user lookup fails, that error is returned whatever file creation would do, and no file is created |
| Jelly.DirectoryOutcomeIgnored | jelly.go:42-44 | with the other outcomes fixed, neither what Stat reports nor whether Mkdir succeeds changes what NewLog returns: the code never consults them |
| Jelly.LoggerInvariant | jelly.go:53-57 | a constructed Logger's name contains `.log`, and its path is non-empty and ends with the name |
| Text.Contains | jelly.go:32 | `strings.Contains`: the substring occurs at some index; the empty string is contained in every string and nothing longer than the string is |
| Text.ContainsAppended | jelly.go:33 | a name with `.log` appended contains `.log` |
| Text.LastIndex | jelly.go:85 | -1 exactly when the character does not occur; otherwise the index of an occurrence with no occurrence after it |
| Jelly.Basename | jelly.go:85-88 | the result contains no `/` and is a suffix of the input; without a `/` the input is returned unchanged; with one, the character just before the result is a `/`, so the result is the text after the last `/` |
| Jelly.Stringify | jelly.go:93-101 | the buffer the loop builds is `Joined(v)`, each value followed by one space in order, and an empty list gives the empty string |
| Jelly.JoinedAppend | jelly.go:93-101 | stringifying `a + b` gives stringify of `a` followed by stringify of `b` |
| Jelly.JoinedLength | jelly.go:93-101 | the result's length is the sum of the values' lengths plus one per value |
| Jelly.JoinedAt | jelly.go:96-99 | value `i` appears, followed by a space, right after the text of the values before it |
| Text.Decimal | jelly.go:89 | `%d` of the line number is a non-empty string of digits with no leading zero |
| Text.DecimalRoundTrip | jelly.go:89 | reading back the digits of `%d` gives the line number again |
| Text.DecimalInjective | jelly.go:89 | different line numbers are written differently |
| Jelly.Prefix | jelly.go:89 | the `Sprintf` prefix is the file, a colon, the line's digits, a space, then the level followed by ` -` |
| Jelly.WriteLine | jelly.go:81-90 | the line ends with ` - `, the message and a newline |
| Jelly.WriteLineShape | jelly.go:84-89 | the line is `<basename>:<line> `, the level, ` - `, the message and a newline |
| Jelly.WriteLineRoundTrip | jelly.go:84-89 | when the base name has no `:` and the level no space, the base name, line number, level and message can all be read back from the written line |
| Jelly.LevelTagsDistinguish | jelly.go:62-76 | for the same caller and message, the INFO, DEBUG and DIE lines are pairwise different |
| Jelly.Info | jelly.go:62-64 | Info writes the line for level `INFO` with the stringified values |
| Jelly.Debug | jelly.go:68-70 | Debug writes the line for level `DEBUG` with the stringified values |
| Jelly.Die | jelly.go:74-77 | Die writes the line for level `DIE` with the stringified values, then asks for exit status 1 |
| JellyExamples.NewLogKeepsSuffix | doc.go:15 | `NewLog("app.log")` keeps the name and logs to `<home>/.jelly/app.log` |
| JellyExamples.NewLogAppendsSuffix | jelly.go:32-55 | `NewLog("app")` logs to `<home>/.jelly/app.log` after looking up the user, checking and creating the directory, then creating the file |
| JellyExamples.ContainedSuffixIsEnough | jelly.go:32 | `app.log.old` and `x.logs` are not given another `.log` |
| JellyExamples.EmptyNameFails | jelly.go:28-30 | an empty name fails whatever the host would report, with no system call |
| JellyExamples.BasenameExample | jelly.go:85-88 | the base name of `/src/app/main.go` is `main.go` |
| JellyExamples.JoinedExample | doc.go:22 | the values of the documented `Info` call stringify to `hello world 42 true ` |
| JellyExamples.InfoExample | doc.go:22 | the documented `Info` call, made from line 22 of `/src/app/main.go`, writes `main.go:22 INFO - hello world 42 true ` and a newline |
| JellyExamples.DieExample | jelly.go:74-77 | `Die` with no values writes `main.go:7 DIE - ` and a newline, and asks for exit status 1 |

## Left out

- File system calls (`user.Current`, `os.Stat`, `os.Mkdir`, `os.Create`): their outcomes are inputs (`Host`). The errors they return are reduced to `UserLookupFailed` and `CreateFailed(path)`.
- The open file, and appending lines to it: Info, Debug and Die return the line they would write.
- The date and time prefix the log writer adds (`log.Ldate|log.Ltime|log.LUTC`): it depends on the clock.
- The mutex around `write`: it only matters with concurrent callers, and a sequential model has none.
- `runtime.Caller(2)`: the caller's file and line are inputs (`Caller`).
- `os.Exit(1)`: Die returns the exit status instead of ending the process.
- `fmt.Sprintf("%v", …)` rendering of the values: each value is given as its already rendered string, so float formats such as `66.6` are not modelled.
- Strings are sequences of characters, not of UTF-8 bytes. The code searches only for `.log` (jelly.go:32) and `/` (jelly.go:85), both ASCII, so the results agree with the byte-level code for valid UTF-8. `ParseLine`, which is not part of the source, also searches for `:` and space.
- Jelly.WriteLineRoundTrip: does not cover a base name containing `:`. The line format does not delimit the file name, so such a line cannot be split unambiguously.
- Jelly.DirectoryOutcomeIgnored: with a real file system, a directory that could not be created would make `os.Create` fail. The `Host` value chooses that outcome independently, so the lemma only says that the code does not look at Stat's or Mkdir's result.
- doc.go is a package comment with a usage example. It has no logic.
