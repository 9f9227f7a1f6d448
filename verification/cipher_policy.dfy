/**
 * The cipher allow-list of an Outline server: only the AEAD ciphers of the
 * Shadowsocks AEAD specification are accepted, because the tunnel engine
 * supports no other kind. Membership is exact string equality.
 */
module CipherPolicy {

  /** The four accepted cipher names, exactly as written in the allow-list. */
  const Chacha20: string := "chacha20-ietf-poly1305"
  const Aes128Gcm: string := "aes-128-gcm"
  const Aes192Gcm: string := "aes-192-gcm"
  const Aes256Gcm: string := "aes-256-gcm"

  const SupportedCiphers: set<string> := {Chacha20, Aes128Gcm, Aes192Gcm, Aes256Gcm}

  /** `OutlineServer.isServerCipherSupported`: a lookup in the allow-list set. */
  function IsServerCipherSupported(cipher: string): (r: bool)
    ensures r <==> (cipher == "chacha20-ietf-poly1305" || cipher == "aes-128-gcm"
                    || cipher == "aes-192-gcm" || cipher == "aes-256-gcm")
  {
    cipher in SupportedCiphers
  }

  /** The allow-list holds four distinct names. */
  lemma SupportedCipherCount()
    ensures |SupportedCiphers| == 4
  {
  }

  // ---- case sensitivity ----------------------------------------------------

  function LowerChar(c: char): char {
    if 'A' <= c <= 'Z' then (c as int - 'A' as int + 'a' as int) as char else c
  }

  /** ASCII lower-casing, the normalisation the allow-list does NOT apply. */
  function AsciiLower(s: string): (r: string)
    ensures |r| == |s|
    ensures forall i :: 0 <= i < |s| ==> r[i] == LowerChar(s[i])
  {
    if |s| == 0 then [] else AsciiLower(s[..|s| - 1]) + [LowerChar(s[|s| - 1])]
  }

  predicate HasNoUpper(s: string) {
    forall i :: 0 <= i < |s| ==> !('A' <= s[i] <= 'Z')
  }

  /** Lower-casing leaves a string without upper-case letters unchanged. */
  lemma LowerOfLowerCase(s: string)
    requires HasNoUpper(s)
    ensures AsciiLower(s) == s
  {
    var r := AsciiLower(s);
    assert forall i :: 0 <= i < |s| ==> r[i] == s[i];
  }

  /** Every accepted name is already in lower case. */
  lemma SupportedAreLowerCase(c: string)
    requires IsServerCipherSupported(c)
    ensures HasNoUpper(c)
    ensures AsciiLower(c) == c
  {
    LowerOfLowerCase(c);
  }

  /**
   * Matching is case-sensitive: a spelling that differs from an accepted
   * name only in letter case is rejected.
   */
  lemma CaseVariantsRejected(t: string)
    requires IsServerCipherSupported(AsciiLower(t))
    requires t != AsciiLower(t)
    ensures !IsServerCipherSupported(t)
  {
    if IsServerCipherSupported(t) {
      SupportedAreLowerCase(t);
    }
  }

  // ---- no trimming or padding ------------------------------------------------

  /**
   * Matching does no trimming: an accepted name followed by anything
   * (a space, a newline, another suffix) is rejected.
   */
  lemma ExtensionsRejected(c: string, suffix: string)
    requires IsServerCipherSupported(c)
    requires |suffix| > 0
    ensures !IsServerCipherSupported(c + suffix)
  {
    var t := c + suffix;
    assert t[0] == c[0];
    assert |t| > |c|;
  }

  /** Nor is an accepted name preceded by anything. */
  lemma PrefixedRejected(prefix: string, c: string)
    requires IsServerCipherSupported(c)
    requires |prefix| > 0
    ensures !IsServerCipherSupported(prefix + c)
  {
    var t := prefix + c;
    assert t[|t| - |c|] == c[0];
    assert |t| > |c|;
  }
}
