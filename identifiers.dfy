/**
 * How a savepoint's id is made: the string
 * "<HOST>:<pid>:<time>:nested:<counter>" is hashed with SHA-256 and the id is
 * the first 11 characters (`[0..10]`) of the hex digest.
 */
module Identifiers {
  import opened Wrappers

  predicate IsLowerHexDigit(c: char)
  {
    '0' <= c <= '9' || 'a' <= c <= 'f'
  }

  /** What `Digest::SHA256.hexdigest` returns: 64 lower-case hex digits. */
  type HexDigest = s: string | |s| == 64 && forall i :: 0 <= i < |s| ==> IsLowerHexDigit(s[i])
    witness seq(64, _ => '0')

  function DigitChar(d: nat): (c: char)
    requires d < 10
    ensures '0' <= c <= '9' && c as int - '0' as int == d
  {
    ('0' as int + d) as char
  }

  /** Ruby's `Integer#to_s` for a non-negative integer: its decimal digits, no leading zeros. */
  function Decimal(n: nat): (s: string)
    ensures 0 < |s| && forall i :: 0 <= i < |s| ==> '0' <= s[i] <= '9'
    ensures |s| == 1 <==> n < 10
    ensures |s| > 1 ==> s[0] != '0'
    decreases n
  {
    if n < 10 then [DigitChar(n)] else Decimal(n / 10) + [DigitChar(n % 10)]
  }

  /** Reads decimal digits back as the number they spell. */
  function DecimalValue(s: string): nat
    decreases |s|
  {
    if s == [] then 0
    else
      var c := s[|s| - 1];
      DecimalValue(s[..|s| - 1]) * 10 + (if '0' <= c <= '9' then c as int - '0' as int else 0)
  }

  /** Printing a number and reading it back gives the number: different numbers print differently. */
  lemma {:induction false} DecimalRoundTrip(n: nat)
    ensures DecimalValue(Decimal(n)) == n
    decreases n
  {
    if n >= 10 {
      var s := Decimal(n);
      assert s[..|s| - 1] == Decimal(n / 10);
      DecimalRoundTrip(n / 10);
    }
  }

  predicate NoColon(s: string)
  {
    forall i :: 0 <= i < |s| ==> s[i] != ':'
  }

  /** The text after the last colon, or the whole string when it has none. */
  function AfterLastColon(s: string): (r: string)
    ensures NoColon(r)
    decreases |s|
  {
    if s == [] || s[|s| - 1] == ':' then []
    else AfterLastColon(s[..|s| - 1]) + [s[|s| - 1]]
  }

  /** In "<x>:<d>" with no colon in `d`, the text after the last colon is `d`. */
  lemma {:induction false} AfterLastColonOf(x: string, d: string)
    requires NoColon(d)
    ensures AfterLastColon(x + ":" + d) == d
    decreases |d|
  {
    var s := x + ":" + d;
    if d != [] {
      var d0 := d[..|d| - 1];
      assert s[..|s| - 1] == x + ":" + d0;
      AfterLastColonOf(x, d0);
      assert d == d0 + [d[|d| - 1]];
    }
  }

  /** The counter a seed was made with, read back from the text after its last colon. */
  function CounterOf(seed: string): nat
  {
    DecimalValue(AfterLastColon(seed))
  }

  /**
   * The string the digest is taken of, with the already incremented counter
   * at its end; the counter can be read back from it, whatever the host,
   * process id and time.
   */
  function Seed(host: string, pid: nat, time: string, counter: nat): (s: string)
    ensures CounterOf(s) == counter
  {
    var prefix := host + ":" + Decimal(pid) + ":" + time + ":nested";
    AfterLastColonOf(prefix, Decimal(counter));
    DecimalRoundTrip(counter);
    prefix + ":" + Decimal(counter)
  }

  /** Two seeds with different counters are different strings, whatever the host, process id and time. */
  lemma SeedDeterminesCounter(host: string, pid: nat, time: string, counter: nat,
                              host': string, pid': nat, time': string, counter': nat)
    requires Seed(host, pid, time, counter) == Seed(host', pid', time', counter')
    ensures counter == counter'
  {
  }

  function Min(a: int, b: int): int
  {
    if a <= b then a else b
  }

  /**
   * Ruby's `s[first..last]` with an inclusive range: `nil` when `first` lies
   * beyond the end, otherwise the characters from `first` up to `last`, cut
   * at the end of the string (empty when `last < first`).
   */
  function InclusiveSlice(s: string, first: nat, last: nat): (r: Option<string>)
    ensures r.None? <==> first > |s|
    ensures r.Some? ==> |r.value| == if last < first then 0 else Min(last + 1, |s|) - first
    ensures r.Some? ==> forall i :: 0 <= i < |r.value| ==> r.value[i] == s[first + i]
  {
    if first > |s| then None
    else if last < first then Some([])
    else Some(s[first..Min(last + 1, |s|)])
  }

  /** An id as the savepoint statements quote it: 11 lower-case hex digits. */
  predicate IsSavepointId(id: string)
  {
    |id| == 11 && forall i :: 0 <= i < |id| ==> IsLowerHexDigit(id[i])
  }

  /**
   * `hexdigest(...)[0..10]`: the digest's first 11 characters. Being hex
   * digits, they hold no double quote, so quoting the id needs no escaping.
   */
  function SavepointId(digest: HexDigest): (id: string)
    ensures IsSavepointId(id)
    ensures id == digest[..11]
    ensures forall i :: 0 <= i < |id| ==> id[i] != '"'
  {
    var sliced := InclusiveSlice(digest, 0, 10);
    assert sliced.value == digest[..11];
    sliced.value
  }
}
