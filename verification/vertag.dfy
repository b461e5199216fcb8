/**
 * The decision table of the `BumpVersion` target: which argument string is
 * handed to `git-vertag` for a requested bump, or why the step throws.
 *
 * The inputs the script obtains from outside are parameters here: the latest
 * git tag (`git describe --abbrev=0`), the already parsed `BUMP_VERSION`
 * value, the verdict of `ContainsPreTag` on the latest tag, and the optional
 * `BUMP_MESSAGE`.
 */
module VerTag {
  import opened Results
  import opened Text

  /**
   * The bump kinds the switch names. A C# enum variable can hold any value
   * of its underlying type, so `Unlisted` stands for every value that is
   * none of the six.
   */
  datatype GitVerTag = Major | Minor | Patch | Alpha | Beta | Release | Unlisted(ordinal: int)

  /** The three exceptions the target body can throw before `git-vertag` runs. */
  datatype BumpError =
    | LatestTagMissing                                               // ControlFlow.Assert on the latest tag
    | CannotBumpFromPreRelease(bumpVersion: string, latestTag: string) // ArgumentException
    | UnsupportedBump(bumpVersion: string)                           // ArgumentOutOfRangeException

  /** The kinds that start a new version line; they are refused on a pre-release tag. */
  predicate IsVersionBump(kind: GitVerTag) {
    kind == Major || kind == Minor || kind == Patch
  }

  /** Every successful argument string asks for an empty tag prefix. */
  const PrefixOption: string := " --prefix ''"

  /** The `git-vertag` sub-command chosen for a named kind. */
  function Command(kind: GitVerTag): string
    requires !kind.Unlisted?
  {
    match kind
    case Major => "major --pre alpha"
    case Minor => "minor --pre alpha"
    case Patch => "patch --pre alpha"
    case Alpha => "--pre alpha"
    case Beta => "--pre beta"
    case Release => "release"
  }

  /** The options written for a named kind before the message option. */
  function Head(kind: GitVerTag): string
    requires !kind.Unlisted?
  {
    Command(kind) + PrefixOption
  }

  /** Opening of the message option; the message is closed by a single quote. */
  const MessageOpening: string := " -m '"

  /** The message `git-vertag` is effectively given: a blank `BUMP_MESSAGE` is dropped. */
  function EffectiveMessage(message: Option<string>): Option<string> {
    if IsBlank(message) then None else message
  }

  /** The message option appended to every argument string. */
  function MessageSuffix(message: Option<string>): (suffix: string)
    ensures suffix == [] <==> IsBlank(message)
    ensures suffix != [] ==> |suffix| > |MessageOpening| && suffix[|suffix| - 1] == '\''
  {
    if IsBlank(message) then "" else MessageOpening + message.value + "'"
  }

  /**
   * The body of `BumpVersion` up to the point where `git-vertag` is started:
   * the latest-tag assertion first, then the switch on (kind, pre-release flag).
   * `bumpVersion` is the raw parameter text, used only in the error values.
   */
  function VertagArguments(bumpVersion: string, kind: GitVerTag, latestTag: Option<string>,
                           hasPreTag: bool, message: Option<string>): (r: Result<string, BumpError>)
    ensures r.Failure? <==> IsBlank(latestTag) || kind.Unlisted? || (IsVersionBump(kind) && hasPreTag)
    ensures IsBlank(latestTag) ==> r == Failure(LatestTagMissing)
    ensures !IsBlank(latestTag) && IsVersionBump(kind) && hasPreTag ==>
              r == Failure(CannotBumpFromPreRelease(bumpVersion, latestTag.value))
    ensures !IsBlank(latestTag) && kind.Unlisted? ==> r == Failure(UnsupportedBump(bumpVersion))
    ensures r.Success? ==> EndsWith(r.value, PrefixOption + MessageSuffix(message))
  {
    if IsBlank(latestTag) then
      Failure(LatestTagMissing)
    else if kind.Unlisted? then
      Failure(UnsupportedBump(bumpVersion))
    else if IsVersionBump(kind) && hasPreTag then
      Failure(CannotBumpFromPreRelease(bumpVersion, latestTag.value))
    else
      ConcatEndsWith(Command(kind), PrefixOption, MessageSuffix(message));
      Success(Head(kind) + MessageSuffix(message))
  }

  // ---------------------------------------------------------------------
  // Decoding: an independent reading of an argument string back into the
  // request it encodes: the inverse of `VertagArguments`.
  // ---------------------------------------------------------------------

  /** What an argument string asks `git-vertag` to do. */
  datatype Request = Request(kind: GitVerTag, message: Option<string>)

  /** The named kind whose options open `a`, tried in a fixed order. */
  function MatchCommand(a: string): (k: Option<GitVerTag>)
    ensures k.Some? ==> !k.value.Unlisted? && Head(k.value) <= a
  {
    if Head(Major) <= a then Some(Major)
    else if Head(Minor) <= a then Some(Minor)
    else if Head(Patch) <= a then Some(Patch)
    else if Head(Alpha) <= a then Some(Alpha)
    else if Head(Beta) <= a then Some(Beta)
    else if Head(Release) <= a then Some(Release)
    else None
  }

  /** Reads the message option: nothing at all, or a quoted non-blank message. */
  function DecodeSuffix(rest: string): Option<Option<string>> {
    if rest == [] then Some(None)
    else if |rest| > |MessageOpening| && rest[..|MessageOpening|] == MessageOpening && rest[|rest| - 1] == '\''
            && !IsBlank(Some(rest[|MessageOpening|..|rest| - 1])) then
      Some(Some(rest[|MessageOpening|..|rest| - 1]))
    else None
  }

  /** Reads an argument string back into the request it encodes, if it is one. */
  function DecodeArguments(a: string): (r: Option<Request>)
    ensures r.Some? ==> !r.value.kind.Unlisted? && Head(r.value.kind) <= a
  {
    match MatchCommand(a)
    case None => None
    case Some(kind) =>
      match DecodeSuffix(a[|Head(kind)|..])
      case None => None
      case Some(message) => Some(Request(kind, message))
  }
}

module VerTagProofs {
  import opened Results
  import opened Text
  import opened VerTag

  /** The message option is read back as the effective message. */
  lemma SuffixRoundTrip(message: Option<string>)
    ensures DecodeSuffix(MessageSuffix(message)) == Some(EffectiveMessage(message))
  {
    if !IsBlank(message) {
      var s := MessageSuffix(message);
      assert s[..|MessageOpening|] == MessageOpening;
      assert s[|MessageOpening|..|s| - 1] == message.value;
    }
  }

  /** The opening of an argument string identifies the kind that produced it. */
  lemma HeadRoundTrip(kind: GitVerTag, rest: string)
    requires !kind.Unlisted?
    ensures MatchCommand(Head(kind) + rest) == Some(kind)
  {
    var a := Head(kind) + rest;
    PrefixOfConcat(Head(kind), rest);
    // each head tried earlier differs from this one at position 0, 1 or 6
    match kind
    case Major =>
    case Minor =>
      DiffersAt(Head(Major), a, 1);
    case Patch =>
      DiffersAt(Head(Major), a, 0);
      DiffersAt(Head(Minor), a, 0);
    case Alpha =>
      DiffersAt(Head(Major), a, 0);
      DiffersAt(Head(Minor), a, 0);
      DiffersAt(Head(Patch), a, 0);
    case Beta =>
      DiffersAt(Head(Major), a, 0);
      DiffersAt(Head(Minor), a, 0);
      DiffersAt(Head(Patch), a, 0);
      DiffersAt(Head(Alpha), a, 6);
    case Release =>
      DiffersAt(Head(Major), a, 0);
      DiffersAt(Head(Minor), a, 0);
      DiffersAt(Head(Patch), a, 0);
      DiffersAt(Head(Alpha), a, 0);
      DiffersAt(Head(Beta), a, 0);
  }

  /** Every argument string the table produces decodes to the bump asked for and its effective message. */
  lemma ArgumentsRoundTrip(bumpVersion: string, kind: GitVerTag, latestTag: Option<string>,
                           hasPreTag: bool, message: Option<string>)
    requires VertagArguments(bumpVersion, kind, latestTag, hasPreTag, message).Success?
    ensures DecodeArguments(VertagArguments(bumpVersion, kind, latestTag, hasPreTag, message).value)
            == Some(Request(kind, EffectiveMessage(message)))
  {
    var a := VertagArguments(bumpVersion, kind, latestTag, hasPreTag, message).value;
    assert a == Head(kind) + MessageSuffix(message);
    HeadRoundTrip(kind, MessageSuffix(message));
    assert a[|Head(kind)|..] == MessageSuffix(message);
    SuffixRoundTrip(message);
  }

  /** A decodable message option is exactly the one written for the message it decodes to. */
  lemma SuffixDecodedIsWritten(rest: string)
    requires DecodeSuffix(rest).Some?
    ensures MessageSuffix(DecodeSuffix(rest).value) == rest
  {
    if rest != [] {
      var m := rest[|MessageOpening|..|rest| - 1];
      assert rest == MessageOpening + m + "'";
    }
  }

  /** Conversely, every decodable argument string is what the table yields for its request. */
  lemma DecodedArgumentsAreProduced(a: string, bumpVersion: string, latestTag: Option<string>)
    requires DecodeArguments(a).Some?
    requires !IsBlank(latestTag)
    ensures VertagArguments(bumpVersion, DecodeArguments(a).value.kind, latestTag, false,
                            DecodeArguments(a).value.message) == Success(a)
  {
    var req := DecodeArguments(a).value;
    var rest := a[|Head(req.kind)|..];
    assert DecodeSuffix(rest) == Some(req.message);
    SuffixDecodedIsWritten(rest);
    assert a == Head(req.kind) + rest;
    NamedKindArguments(bumpVersion, req.kind, latestTag, req.message);
  }

  /** On a usable tag without pre-release part, a named kind yields its head and the message option. */
  lemma NamedKindArguments(bumpVersion: string, kind: GitVerTag, latestTag: Option<string>, message: Option<string>)
    requires !IsBlank(latestTag) && !kind.Unlisted?
    ensures VertagArguments(bumpVersion, kind, latestTag, false, message) == Success(Head(kind) + MessageSuffix(message))
  {
  }

  /** The pre-release flag only matters for Major, Minor and Patch. */
  lemma PreTagIrrelevantForPreReleaseKinds(bumpVersion: string, kind: GitVerTag, latestTag: Option<string>,
                                           message: Option<string>)
    requires kind == Alpha || kind == Beta || kind == Release
    ensures VertagArguments(bumpVersion, kind, latestTag, true, message)
            == VertagArguments(bumpVersion, kind, latestTag, false, message)
  {
  }

  /** The argument string determines the bump kind and the effective message it was built from. */
  lemma ArgumentsDetermineRequest(raw1: string, k1: GitVerTag, t1: Option<string>, p1: bool, m1: Option<string>,
                                  raw2: string, k2: GitVerTag, t2: Option<string>, p2: bool, m2: Option<string>)
    requires VertagArguments(raw1, k1, t1, p1, m1).Success?
    requires VertagArguments(raw2, k2, t2, p2, m2) == VertagArguments(raw1, k1, t1, p1, m1)
    ensures k1 == k2 && EffectiveMessage(m1) == EffectiveMessage(m2)
  {
    ArgumentsRoundTrip(raw1, k1, t1, p1, m1);
    ArgumentsRoundTrip(raw2, k2, t2, p2, m2);
  }
}
