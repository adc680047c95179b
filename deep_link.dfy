/**
 * The input validator of the gateway: the allowed-scheme check applied to
 * every string that reaches the app from outside (a deep link delivered by
 * the OS, an argument of a second launch), and the two filters built on it.
 */
module DeepLink {
  import opened Wrappers
  import opened RustStr
  import opened Seqs

  /** The only two schemes a deep link may use. */
  const MailtoScheme: string := "mailto:"
  const AppScheme: string := "forwardemail:"

  /** What makes a launch argument look like a URL. */
  const SchemeSeparator: string := "://"

  /** The deep-link check: after trimming, the string begins with an allowed scheme. */
  predicate IsValidDeepLink(url: string)
  {
    var trimmed := Trim(url);
    StartsWith(trimmed, MailtoScheme) || StartsWith(trimmed, AppScheme)
  }

  /** Whitespace added at either end never changes the verdict. */
  lemma ValidIgnoresPadding(w1: string, url: string, w2: string)
    requires AllWhitespace(w1) && AllWhitespace(w2)
    ensures IsValidDeepLink(w1 + url + w2) == IsValidDeepLink(url)
  {
    TrimIgnoresPadding(w1, url, w2);
  }

  /**
   * Only leading whitespace matters: a link is valid exactly when, once its
   * leading whitespace is dropped, it begins with `mailto:` or
   * `forwardemail:` (both schemes end in ':', which trailing trimming never
   * removes).
   */
  lemma ValidIffSchemeAfterLeadingWhitespace(url: string)
    ensures IsValidDeepLink(url)
        <==> StartsWith(TrimStart(url), MailtoScheme) || StartsWith(TrimStart(url), AppScheme)
  {
    TrimEndKeepsPrefix(TrimStart(url), MailtoScheme);
    TrimEndKeepsPrefix(TrimStart(url), AppScheme);
  }

  /** A string that begins with an allowed scheme is valid as it stands. */
  lemma SchemePrefixIsValid(url: string)
    requires StartsWith(url, MailtoScheme) || StartsWith(url, AppScheme)
    ensures IsValidDeepLink(url)
  {
    assert TrimStart(url) == url;
    ValidIffSchemeAfterLeadingWhitespace(url);
  }

  /** Other schemes, such as `http:`, `https:`, `file:` and `javascript:`, are always rejected. */
  lemma OtherSchemesRejected(url: string, scheme: string)
    requires scheme == "http:" || scheme == "https:" || scheme == "file:" || scheme == "javascript:"
    requires StartsWith(Trim(url), scheme)
    ensures !IsValidDeepLink(url)
  {
    var t := Trim(url);
    assert t[0] == scheme[0] && t[1] == scheme[1];
  }

  /** The single-instance filter: a valid deep link, or no URL at all. */
  predicate KeepLaunchArg(arg: string)
  {
    IsValidDeepLink(arg) || !Contains(arg, SchemeSeparator)
  }

  /** An argument without a colon, such as a flag or a path, is always forwarded. */
  lemma PlainArgKept(arg: string)
    requires ':' !in arg
    ensures KeepLaunchArg(arg)
  {
    NotContainsWithout(arg, SchemeSeparator, 0);
  }

  /** A URL-looking argument with a disallowed scheme is dropped. */
  lemma ForeignUrlArgDropped(arg: string, scheme: string)
    requires scheme == "http:" || scheme == "https:" || scheme == "file:" || scheme == "javascript:"
    requires StartsWith(Trim(arg), scheme) && Contains(arg, SchemeSeparator)
    ensures !KeepLaunchArg(arg)
  {
    OtherSchemesRejected(arg, scheme);
  }

  /** The arguments of a second launch that are forwarded to the UI. */
  function SafeLaunchArgs(args: seq<string>): seq<string>
  {
    Filter(KeepLaunchArg, args)
  }

  /** The URLs of a deep-link delivery that are forwarded to the UI. */
  function SafeUrls(urls: seq<string>): seq<string>
  {
    Filter(IsValidDeepLink, urls)
  }

  /**
   * The forwarded launch arguments are an order-preserving subsequence of
   * the arguments, holding every element that passes the check as often
   * as it occurs and nothing else.
   */
  lemma SafeLaunchArgsSpec(args: seq<string>, a: string)
    ensures IsSubsequence(SafeLaunchArgs(args), args)
    ensures a in SafeLaunchArgs(args) <==> a in args && (IsValidDeepLink(a) || !Contains(a, SchemeSeparator))
    ensures multiset(SafeLaunchArgs(args))[a] == if KeepLaunchArg(a) then multiset(args)[a] else 0
  {
    FilterIsSubsequence(KeepLaunchArg, args);
    FilterMembership(KeepLaunchArg, args, a);
    FilterMultiplicity(KeepLaunchArg, args, a);
  }

  /** Applying the launch-argument filter twice is the same as applying it once. */
  lemma SafeLaunchArgsIdempotent(args: seq<string>)
    ensures SafeLaunchArgs(SafeLaunchArgs(args)) == SafeLaunchArgs(args)
  {
    FilterIdempotent(KeepLaunchArg, args);
  }

  /** The payload of the `deep-link-received` event. */
  datatype DeepLinkPayload = DeepLinkPayload(urls: seq<string>)

  /** The payload of the `single-instance` event. */
  datatype SingleInstancePayload = SingleInstancePayload(args: seq<string>, cwd: string)

  /**
   * The `deep-link://new-url` listener. `parsed` is the outcome of decoding
   * the event's JSON payload as a list of strings (`None` when it does not
   * decode); the result is the `deep-link-received` event emitted, if any.
   */
  function OnNewUrl(parsed: Option<seq<string>>): (e: Option<DeepLinkPayload>)
    ensures parsed.None? ==> e.None?
    ensures e.Some? ==> e.value.urls != []
    ensures e.Some? ==> forall i :: 0 <= i < |e.value.urls| ==> IsValidDeepLink(e.value.urls[i])
    ensures parsed.Some? ==>
      (e.None? <==> forall i :: 0 <= i < |parsed.value| ==> !IsValidDeepLink(parsed.value[i]))
  {
    match parsed
    case None => None
    case Some(urls) =>
      var safe := SafeUrls(urls);
      FilterEmpty(IsValidDeepLink, urls);
      if safe != [] then Some(DeepLinkPayload(safe)) else None
  }

  /**
   * The URLs forwarded by the listener are exactly the valid elements of the
   * decoded list, in their original order and with their multiplicities.
   */
  lemma OnNewUrlForwardsValidUrls(urls: seq<string>, u: string)
    requires OnNewUrl(Some(urls)).Some?
    ensures IsSubsequence(OnNewUrl(Some(urls)).value.urls, urls)
    ensures u in OnNewUrl(Some(urls)).value.urls <==> u in urls && IsValidDeepLink(u)
    ensures multiset(OnNewUrl(Some(urls)).value.urls)[u]
         == if IsValidDeepLink(u) then multiset(urls)[u] else 0
  {
    FilterIsSubsequence(IsValidDeepLink, urls);
    FilterMembership(IsValidDeepLink, urls, u);
    FilterMultiplicity(IsValidDeepLink, urls, u);
  }

  /**
   * The event of a second launch: always produced, with the working
   * directory unchanged and the arguments filtered.
   */
  function SingleInstanceEvent(args: seq<string>, cwd: string): (e: SingleInstancePayload)
    ensures e.cwd == cwd
    ensures e.args == SafeLaunchArgs(args)
    ensures |e.args| <= |args|
    ensures forall i :: 0 <= i < |e.args| ==> IsValidDeepLink(e.args[i]) || !Contains(e.args[i], SchemeSeparator)
    ensures IsSubsequence(e.args, args)
  {
    FilterIsSubsequence(KeepLaunchArg, args);
    SingleInstancePayload(SafeLaunchArgs(args), cwd)
  }

  /**
   * Examples. Each takes its strings as parameters fixed by a precondition:
   * `Trim` is recursive, and on a string literal Dafny would unfold it once
   * per character, whereas on a parameter the facts come from the lemmas
   * above.
   */

  /** A batch of disallowed URLs produces no event. */
  lemma RejectedBatchIsSuppressed(evil: string, js: string)
    requires evil == "http://evil.test" && js == "javascript:alert(1)"
    ensures OnNewUrl(Some([evil, js])).None?
  {
    TrimOfUnpadded(evil);
    TrimOfUnpadded(js);
    OtherSchemesRejected(evil, "http:");
    OtherSchemesRejected(js, "javascript:");
  }

  /** A mixed batch forwards only its allowed URL. */
  lemma MixedBatchForwardsMailto(mail: string, web: string)
    requires mail == "mailto:a@b.com" && web == "http://x"
    ensures OnNewUrl(Some([mail, web])) == Some(DeepLinkPayload([mail]))
  {
    assert IsValidDeepLink(mail) by {
      SchemePrefixIsValid(mail);
    }
    assert !IsValidDeepLink(web) by {
      TrimOfUnpadded(web);
      OtherSchemesRejected(web, "http:");
    }
    ValidThenInvalidBatch(mail, web);
  }

  lemma ValidThenInvalidBatch(good: string, bad: string)
    requires IsValidDeepLink(good) && !IsValidDeepLink(bad)
    ensures OnNewUrl(Some([good, bad])) == Some(DeepLinkPayload([good]))
  {
    var s := [good, bad];
    assert s[1..] == [bad];
    assert [bad][1..] == [];
    assert Filter(IsValidDeepLink, [bad]) == [];
    assert SafeUrls(s) == [good];
  }

  /** A plain flag passes, a custom-scheme URL passes, an `http` URL does not. */
  lemma LaunchArgsExample(flag: string, open: string, bad: string)
    requires flag == "--flag" && open == "forwardemail://open" && bad == "http://bad"
    ensures SafeLaunchArgs([flag, open, bad]) == [flag, open]
  {
    assert KeepLaunchArg(flag) by {
      PlainArgKept(flag);
    }
    assert KeepLaunchArg(open) by {
      SchemePrefixIsValid(open);
    }
    assert Trim(bad) == bad by {
      TrimOfUnpadded(bad);
    }
    assert Contains(bad, SchemeSeparator) by {
      assert OccursAt(bad, SchemeSeparator, 4);
    }
    assert !KeepLaunchArg(bad) by {
      ForeignUrlArgDropped(bad, "http:");
    }
    KeptKeptDropped(flag, open, bad);
  }

  lemma KeptKeptDropped(a: string, b: string, c: string)
    requires KeepLaunchArg(a) && KeepLaunchArg(b) && !KeepLaunchArg(c)
    ensures SafeLaunchArgs([a, b, c]) == [a, b]
  {
    var s := [a, b, c];
    assert s[1..] == [b, c];
    assert [b, c][1..] == [c];
    assert [c][1..] == [];
    assert Filter(KeepLaunchArg, [c]) == [];
    assert Filter(KeepLaunchArg, [b, c]) == [b];
  }

  /** A second launch without arguments still yields an event. */
  lemma EmptyLaunchExample(cwd: string)
    requires cwd == "/tmp"
    ensures SingleInstanceEvent([], cwd) == SingleInstancePayload([], "/tmp")
  {
  }
}
