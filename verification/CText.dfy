/** Text in C buffers: what snprintf writes and what a reader of a NUL-terminated string sees. */
module CText {

  const NUL: char := '\0'

  predicate NoNul(s: seq<char>) {
    forall i :: 0 <= i < |s| ==> s[i] != NUL
  }

  /** The C string at the start of some memory: everything before the first NUL. */
  function CString(s: seq<char>): (r: string)
    ensures |r| <= |s| && NoNul(r)
    ensures forall i :: 0 <= i < |r| ==> r[i] == s[i]
    ensures |r| < |s| ==> s[|r|] == NUL
  {
    if s == [] || s[0] == NUL then "" else [s[0]] + CString(s[1..])
  }

  lemma {:induction false} CStringIs(s: seq<char>, n: nat)
    requires n < |s| && s[n] == NUL && NoNul(s[..n])
    ensures CString(s) == s[..n]
  {
    if n > 0 {
      assert s[..n][0] == s[0];
      assert s[1..][..n - 1] == s[..n][1..];
      CStringIs(s[1..], n - 1);
    }
  }

  /** The buffer up to an offset holds this text, followed by its terminator. */
  ghost predicate Holds(buffer: seq<char>, text: string) {
    |text| < |buffer| && buffer[..|text|] == text && buffer[|text|] == NUL
  }

  /** offset += snprintf(buffer + offset, size - offset, ...), when what is printed fits: the rest of the buffer
      keeps what it held. */
  method Print(buffer: array<char>, offset: nat, text: string) returns (after: nat)
    requires offset + |text| < buffer.Length
    modifies buffer
    ensures after == offset + |text|
    ensures buffer[..offset] == old(buffer[..offset])
    ensures buffer[offset..after] == text && buffer[after] == NUL
    ensures buffer[after + 1..] == old(buffer[after + 1..])
    ensures buffer[..after] == old(buffer[..offset]) + text
  {
    for i := 0 to |text|
      invariant buffer[..offset] == old(buffer[..offset])
      invariant buffer[offset..offset + i] == text[..i]
      invariant buffer[offset + i..] == old(buffer[offset + i..])
    {
      buffer[offset + i] := text[i];
      assert buffer[offset..offset + i + 1] == buffer[offset..offset + i] + [text[i]];
      assert buffer[offset + i + 1..] == old(buffer[offset + i..])[1..];
    }
    after := offset + |text|;
    buffer[after] := NUL;
    assert buffer[offset..after] == text[..|text|];
    assert buffer[..after] == buffer[..offset] + buffer[offset..after];
  }

  /** The same, for a reader who only cares about the text that has been accumulated. */
  method Append(buffer: array<char>, offset: nat, text: string, ghost before: string) returns (after: nat)
    requires Holds(buffer[..], before) && offset == |before| && offset + |text| < buffer.Length
    modifies buffer
    ensures Holds(buffer[..], before + text) && after == |before + text|
    ensures buffer[after + 1..] == old(buffer[after + 1..])
  {
    assert buffer[..offset] == before;
    after := Print(buffer, offset, text);
  }
}
