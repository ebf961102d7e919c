/**
  Machine widths and C-string conventions shared by the firmware components.
 */
module Common {
  datatype Option<+T> = None | Some(value: T)

  type u8 = x: int | 0 <= x < 0x100
  type u16 = x: int | 0 <= x < 0x1_0000
  type u32 = x: int | 0 <= x < TWO_32

  const TWO_32 := 0x1_0000_0000

  lemma Assoc<T>(a: seq<T>, b: seq<T>, c: seq<T>)
    ensures a + b + c == a + (b + c)
  {
  }

  function Min(a: nat, b: nat): nat {
    if a < b then a else b
  }

  /** Unsigned 32-bit subtraction, as in `nowMs - startMs` on `uint32_t`. */
  function Sub32(a: u32, b: u32): u32 {
    (a - b) % TWO_32
  }

  /** What a reader of a C string sees: everything before the first NUL. */
  function CString(s: string): string {
    if s == "" || s[0] == '\0' then "" else [s[0]] + CString(s[1..])
  }

  /** The C string left by `strncpy(dst, src, n); dst[n] = '\0';`. */
  function Truncate(s: string, n: nat): string {
    if |CString(s)| <= n then CString(s) else CString(s)[..n]
  }

  /** A C string ends before the first NUL, or with the buffer. */
  lemma {:induction false} CStringIsPrefix(s: string)
    ensures var r := CString(s);
            r <= s && '\0' !in r && (|r| == |s| || s[|r|] == '\0')
  {
    if s != "" && s[0] != '\0' {
      CStringIsPrefix(s[1..]);
    }
  }

  /** `strncpy` keeps all that comes before a NUL and fits. */
  lemma TruncateIsPrefix(s: string, n: nat)
    ensures var r := Truncate(s, n);
            r <= s && |r| <= n && '\0' !in r && (|r| == n || |r| == |s| || s[|r|] == '\0')
  {
    CStringIsPrefix(s);
  }

  lemma {:induction false} CStringOfNulFree(s: string)
    requires '\0' !in s
    ensures CString(s) == s
  {
    if s != "" {
      CStringOfNulFree(s[1..]);
    }
  }

  /** Reading back a buffer that holds `s`, a terminator and anything after it. */
  lemma {:induction false} CStringOfTerminated(s: string, rest: string)
    requires '\0' !in s
    ensures CString(s + ['\0'] + rest) == s
  {
    if s != "" {
      CStringOfTerminated(s[1..], rest);
      assert (s + ['\0'] + rest)[1..] == s[1..] + ['\0'] + rest;
    }
  }
}
