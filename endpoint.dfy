/**
 * Normalisation of the configured chat-completions URL: a bare host, a
 * version prefix or a full endpoint all become the full endpoint.
 */
module Endpoint {
  import opened Wrappers
  import opened Text

  const DefaultBase := "https://api.groq.com"
  const DefaultEndpoint := DefaultBase + "/openai/v1/chat/completions"

  /** `(url or default).strip().rstrip("/")`. */
  function Base(configured: Option<string>): string
  {
    var raw := if configured.Some? && configured.value != "" then configured.value else DefaultBase;
    RStrip(Strip(raw, PySpace), Only('/'))
  }

  /** `_resolve_groq_chat_completions_url`. */
  function ResolveChatCompletionsUrl(configured: Option<string>): string
  {
    Complete(Base(configured))
  }

  /** The suffix tests applied to the stripped base. */
  function Complete(base: string): string
  {
    if EndsWith(base, "/openai/v1/chat/completions") || EndsWith(base, "/v1/chat/completions") then base
    else if EndsWith(base, "/openai/v1") || EndsWith(base, "/v1") then base + "/chat/completions"
    else base + "/openai/v1/chat/completions"
  }

  /** Every result ends with the versioned chat-completions path. */
  lemma ResolveEndsWithEndpoint(configured: Option<string>)
    ensures EndsWith(ResolveChatCompletionsUrl(configured), "/v1/chat/completions")
    ensures EndsWith(ResolveChatCompletionsUrl(configured), "/chat/completions")
  {
    CompleteEndsWithEndpoint(Base(configured));
  }

  lemma CompleteEndsWithEndpoint(base: string)
    ensures EndsWith(Complete(base), "/v1/chat/completions")
    ensures EndsWith(Complete(base), "/chat/completions")
  {
    var url := Complete(base);
    if EndsWith(base, "/openai/v1/chat/completions") || EndsWith(base, "/v1/chat/completions") {
      FullEndpointBranch(base);
    } else if EndsWith(base, "/openai/v1") || EndsWith(base, "/v1") {
      VersionPrefixBranch(base);
    } else {
      EndsWithSelf(base, "/openai/v1/chat/completions");
      FullEndpointBranch(url);
    }
  }

  lemma FullEndpointBranch(base: string)
    requires EndsWith(base, "/openai/v1/chat/completions") || EndsWith(base, "/v1/chat/completions")
    ensures EndsWith(base, "/v1/chat/completions") && EndsWith(base, "/chat/completions")
  {
    PathSuffixes();
    if EndsWith(base, "/openai/v1/chat/completions") {
      EndsWithTrans(base, "/openai/v1/chat/completions", "/v1/chat/completions");
    }
    EndsWithTrans(base, "/v1/chat/completions", "/chat/completions");
  }

  /** How the recognised paths nest. */
  lemma PathSuffixes()
    ensures EndsWith("/openai/v1/chat/completions", "/v1/chat/completions")
    ensures EndsWith("/v1/chat/completions", "/chat/completions")
    ensures EndsWith("/openai/v1", "/v1")
    ensures "/v1" + "/chat/completions" == "/v1/chat/completions"
  {
    assert "/openai/v1/chat/completions"[7..] == "/v1/chat/completions";
    assert "/v1/chat/completions"[3..] == "/chat/completions";
    assert "/openai/v1"[7..] == "/v1";
    assert |"/v1" + "/chat/completions"| == |"/v1/chat/completions"|;
    assert forall i :: 0 <= i < |"/v1/chat/completions"| ==> ("/v1" + "/chat/completions")[i] == "/v1/chat/completions"[i];
  }

  lemma VersionPrefixBranch(base: string)
    requires EndsWith(base, "/openai/v1") || EndsWith(base, "/v1")
    ensures EndsWith(base + "/chat/completions", "/v1/chat/completions")
    ensures EndsWith(base + "/chat/completions", "/chat/completions")
  {
    PathSuffixes();
    if EndsWith(base, "/openai/v1") {
      EndsWithTrans(base, "/openai/v1", "/v1");
    }
    EndsWithExtend(base, "/v1", "/chat/completions");
    FullEndpointBranch(base + "/chat/completions");
  }

  /** The first character of a non-empty base is never whitespace. */
  lemma {:induction false} BaseStart(configured: Option<string>)
    ensures Base(configured) == [] || !In(Base(configured)[0], PySpace)
  {
    var raw := if configured.Some? && configured.value != "" then configured.value else DefaultBase;
    var t := Strip(raw, PySpace);
    StripBorders(raw, PySpace);
    var b := RStrip(t, Only('/'));
    if b != [] {
      assert b == t[..|b|];
      assert b[0] == t[0];
    }
  }

  lemma BaseOfDefault()
    ensures Base(None) == DefaultBase && Base(Some("")) == DefaultBase
  {
    assert DefaultBase[0] == 'h' && DefaultBase[|DefaultBase| - 1] == 'm';
    StripNoop(DefaultBase, PySpace);
    assert RStrip(DefaultBase, Only('/')) == DefaultBase;
  }

  lemma CompleteOfDefault()
    ensures Complete(DefaultBase) == DefaultEndpoint
  {
    var last := DefaultBase[|DefaultBase| - 1];
    assert last == 'm';
    LastCharDiffers(DefaultBase, "/v1");
    LastCharDiffers(DefaultBase, "/openai/v1");
    LastCharDiffers(DefaultBase, "/v1/chat/completions");
    LastCharDiffers(DefaultBase, "/openai/v1/chat/completions");
  }

  /** A text does not end with a suffix whose last character differs from its own. */
  lemma LastCharDiffers(s: string, p: string)
    requires s != [] && p != [] && s[|s| - 1] != p[|p| - 1]
    ensures !EndsWith(s, p)
  {
  }

  /** An empty or missing setting gives the default endpoint. */
  lemma ResolveDefault()
    ensures ResolveChatCompletionsUrl(None) == DefaultEndpoint
    ensures ResolveChatCompletionsUrl(Some("")) == DefaultEndpoint
  {
    BaseOfDefault();
    CompleteOfDefault();
  }

  /** Completing keeps the base's first character (or starts with '/') and ends with 's'. */
  lemma CompleteBorders(base: string)
    ensures |Complete(base)| > 0
    ensures Complete(base)[0] == (if base == [] then '/' else base[0])
    ensures Complete(base)[|Complete(base)| - 1] == 's'
  {
    CompleteEndsWithEndpoint(base);
    var u := Complete(base);
    assert u[|u| - 20..][19] == 's';
  }

  /** A URL that already ends with the versioned path is returned by the suffix tests unchanged. */
  lemma CompleteFixed(url: string)
    requires EndsWith(url, "/v1/chat/completions")
    ensures Complete(url) == url
  {
  }

  /** Normalising an already normalised URL changes nothing. */
  lemma {:induction false} ResolveIdempotent(configured: Option<string>)
    ensures ResolveChatCompletionsUrl(Some(ResolveChatCompletionsUrl(configured)))
         == ResolveChatCompletionsUrl(configured)
  {
    var u := ResolveChatCompletionsUrl(configured);
    ResolvedBorders(configured);
    BaseOfTrimmed(u);
    CompleteFixed(u);
  }

  /** A resolved URL starts with a non-whitespace character, ends with 's' and with the versioned path. */
  lemma ResolvedBorders(configured: Option<string>)
    ensures var u := ResolveChatCompletionsUrl(configured);
      u != [] && !In(u[0], PySpace) && u[|u| - 1] == 's' && EndsWith(u, "/v1/chat/completions")
  {
    BaseStart(configured);
    CompletedBorders(Base(configured));
  }

  lemma CompletedBorders(b: string)
    requires b == [] || !In(b[0], PySpace)
    ensures var u := Complete(b);
      u != [] && !In(u[0], PySpace) && u[|u| - 1] == 's' && EndsWith(u, "/v1/chat/completions")
  {
    CompleteBorders(b);
    CompleteEndsWithEndpoint(b);
    assert !In('/', PySpace);
  }

  /** A setting with no surrounding whitespace and no trailing '/' is its own base. */
  lemma BaseOfTrimmed(s: string)
    requires s != [] && !In(s[0], PySpace) && !In(s[|s| - 1], PySpace) && s[|s| - 1] != '/'
    ensures Base(Some(s)) == s
  {
    StripNoop(s, PySpace);
    assert RStrip(s, Only('/')) == s;
  }
}
