/**
  The display masks of the `config show` command: a secret is shown as its
  first few bytes followed by `***`, or as `***` alone when it is short.

  Go measures and slices these strings in bytes; here one `char` stands for
  one byte.
 */
module CmdConfig {

  const Masked: string := "***"
  /** Bytes of a Discord token left visible. */
  const TokenShown: nat := 8
  /** Bytes of a webhook URL left visible. */
  const UrlShown: nat := 20

  /**
    `maskToken`: always ends in `***`; what precedes it is a prefix of the
    token, empty for a token of at most 8 bytes and 8 bytes long otherwise.
   */
  function MaskToken(token: string): (r: string)
    ensures |r| >= |Masked| && r[|r| - |Masked|..] == Masked
    ensures r[..|r| - |Masked|] <= token
    ensures |token| <= TokenShown ==> |r| == |Masked|
    ensures |token| > TokenShown ==> |r| == TokenShown + |Masked|
  {
    if |token| <= TokenShown then Masked else token[..TokenShown] + Masked
  }

  /**
    `maskURL`: always ends in `***`; what precedes it is a prefix of the
    URL, empty for a URL of at most 20 bytes and 20 bytes long otherwise.
   */
  function MaskUrl(url: string): (r: string)
    ensures |r| >= |Masked| && r[|r| - |Masked|..] == Masked
    ensures r[..|r| - |Masked|] <= url
    ensures |url| <= UrlShown ==> |r| == |Masked|
    ensures |url| > UrlShown ==> |r| == UrlShown + |Masked|
  {
    if |url| <= UrlShown then Masked else url[..UrlShown] + Masked
  }

  /**
    Two tokens look the same once masked exactly when both are short or both
    are long and agree on their first 8 bytes: the mask shows those bytes and
    nothing else.
   */
  lemma MaskTokenSame(s: string, t: string)
    ensures MaskToken(s) == MaskToken(t) <==>
      (|s| <= TokenShown && |t| <= TokenShown) || (|s| > TokenShown && |t| > TokenShown && s[..TokenShown] == t[..TokenShown])
  {
    if MaskToken(s) == MaskToken(t) && |s| > TokenShown && |t| > TokenShown {
      assert MaskToken(s)[..TokenShown] == s[..TokenShown];
      assert MaskToken(t)[..TokenShown] == t[..TokenShown];
    }
  }

  /**
    Two URLs look the same once masked exactly when both are short or both
    are long and agree on their first 20 bytes.
   */
  lemma MaskUrlSame(s: string, t: string)
    ensures MaskUrl(s) == MaskUrl(t) <==>
      (|s| <= UrlShown && |t| <= UrlShown) || (|s| > UrlShown && |t| > UrlShown && s[..UrlShown] == t[..UrlShown])
  {
    if MaskUrl(s) == MaskUrl(t) && |s| > UrlShown && |t| > UrlShown {
      assert MaskUrl(s)[..UrlShown] == s[..UrlShown];
      assert MaskUrl(t)[..UrlShown] == t[..UrlShown];
    }
  }
}
