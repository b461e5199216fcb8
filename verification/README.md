# Release logic of the Rth build script

The build script of the Rth project (`build/Build.cs`, a Nuke build) is
almost entirely declarative: each target calls an external tool. Two pieces
of it are decision logic of its own, and this project models and verifies
them.

- **Version bump** (`BumpVersion` target). From the requested bump kind
  (`BUMP_VERSION`, already parsed into `GitVerTag`), whether the latest git
  tag is a pre-release tag, and the optional `BUMP_MESSAGE`, the target either
  builds the argument string for `git-vertag` or throws. A blank latest tag
  is refused first. Major, Minor and Patch are refused on a pre-release tag.
  Any enum value outside the six named kinds is out of range. Every
  successful string ends in `--prefix ''` followed by the message option,
  and that option is ` -m '<message>'`, or nothing when the message is null
  or white space (`VerTag`).
- **Publish guard** (`Publish` target). Four requirements must all hold:
  1. an API key is given, or the checkout is not the original repository;
  2. the working copy is clean;
  3. the configuration is Release;
  4. the checkout is the original repository `tulis/Rth`.

  Because of the fourth requirement, the escape in the first one can never
  matter. A run that is allowed always has a non-blank API key (`Publish`).
  The identifier is compared literally: a checkout under any other
  identifier, a renamed repository included, can never publish
  (`ForkNeverPublishes`).

`String.IsNullOrWhiteSpace` and `Char.IsWhiteSpace` decide what "blank"
means in both places. They are modelled exactly, with a C# `null` as
`None` (`Text`).

The argument builder has an inverse: `DecodeArguments`, an independent reader
that recovers the bump kind and the message from an argument string. The
proofs show the two are inverse, in both directions. So the argument string
determines the request it was built from.

Files: `results.dfy` (Option/Result), `text.dfy` (white space),
`vertag.dfy` (`VerTag`, `VerTagProofs`), `publish.dfy` (`Publish`,
`PublishProofs`).

## Model

| member | source | states |
|---|---|---|
| `Text.IsNullOrWhiteSpace` | build/Build.cs:138-146 | the scan answers true exactly when the string is null or every character is .NET white space, and on false names a non-white character |
| `VerTag.MessageSuffix` | build/Build.cs:144-146 | the message option is empty exactly when `BUMP_MESSAGE` is null or white space; otherwise it is longer than ` -m '` and closes with a single quote |
| `VerTag.VertagArguments` | build/Build.cs:138-165 | the step fails exactly when the latest tag is blank, the kind is none of the six, or Major/Minor/Patch meets a pre-release tag; the blank-tag error wins over the others; each failure carries its own error; every success ends with ` --prefix ''` followed by the message option |
| `VerTagProofs.SuffixRoundTrip` | build/Build.cs:144-146 | the message option reads back as the message when it is non-blank, and as no message otherwise |
| `VerTagProofs.HeadRoundTrip` | build/Build.cs:154-160 | the opening options of each named kind identify that kind, whatever follows them |
| `VerTagProofs.ArgumentsRoundTrip` | build/Build.cs:148-160 | every argument string the table yields decodes to the requested kind and the effective message |
| `VerTagProofs.SuffixDecodedIsWritten` | build/Build.cs:144-146 | a readable message option is exactly the one written for the message it reads as |
| `VerTagProofs.DecodedArgumentsAreProduced` | build/Build.cs:154-160 | every readable argument string is what the table yields for its kind and message on a non-pre-release tag |
| `VerTagProofs.PreTagIrrelevantForPreReleaseKinds` | build/Build.cs:158-160 | for Alpha, Beta and Release the result does not depend on the pre-release flag |
| `VerTagProofs.ArgumentsDetermineRequest` | build/Build.cs:154-160 | two requests that yield the same argument string have the same kind and the same effective message |
| `Publish.DefaultConfiguration` | build/Build.cs:62 | the default configuration is Release exactly on a build server |
| `Publish.Requirements` | build/Build.cs:259-262 | there are four requirements; the last holds exactly for the original repository; on a fork the first always holds |
| `Publish.PublishAllowed` | build/Build.cs:259-262 | Publish is allowed exactly when the API key is non-blank, the working copy is clean, the configuration is Release and the repository identifier is `tulis/Rth` |
| `PublishProofs.ApiKeyEscapeIsDead` | build/Build.cs:259-262 | dropping `|| !IsOriginalRepository` from the first requirement admits exactly the same runs |
| `PublishProofs.ForkNeverPublishes` | build/Build.cs:259-262 | a fork is never allowed to publish; its API-key requirement holds and the repository requirement fails |
| `PublishProofs.LocalDefaultNeverPublishes` | build/Build.cs:61-62 | a local build that keeps the default configuration is never allowed to publish |

## Left out

- The Nuke target engine: `DependsOn`, `Before`, `Triggers`, `Partition`, `ProceedAfterFailure`, `Produces`/`Consumes`, plan ordering, and when `Requires` are evaluated. It is library code that is not part of this model. `Requires` is modelled only as the conjunction of its predicates.
- The `Requires` of `BumpVersion` (lines 134-135): `IsBumpVersionValid` and `GitHasCleanWorkingCopy` are not part of this model, and the engine that checks requirements is left out as well.
- `GitVerTagExtension.ContainsPreTag`: not part of this model. Its verdict on the latest tag is the boolean input `hasPreTag`.
- `Enums.Parse` (case-insensitive display-name parsing): a foreign library. The parsed `GitVerTag` value is an input. The enum declaration is not part of this model either, so `Unlisted` stands for every value outside the six the switch names. A `BUMP_VERSION` text that does not parse makes line 141 throw after the tag assertion and before the switch; that throw is not modelled, and `IsBumpVersionValid` (line 134) is taken to exclude it.
- `GitDescribeLatestTag`: reading the latest tag is a git call. The tag is an input, with `None` for null.
- The exception message texts, including the list of accepted names in the out-of-range message. The errors are structured values that carry the raw `BUMP_VERSION` text and the latest tag.
- Starting `git-vertag` and pushing the tag it prints (lines 167-175): process I/O.
- All other targets (`InstallGitVerTag`, `Clean`, `Restore`, `Compile`, `CC`, `Pack`, `Test`, `ToolsRestore`, the coverage uploads) and the body of `Publish`. They are tool invocations and file-system work.
- CI attributes, parameter binding, and path and glob computations: these are configuration.
