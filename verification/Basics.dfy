/** Characters and comparisons that several modules use. */
module Basics {

  predicate Digit(c: char) { '0' <= c <= '9' }

  /** `\w` */
  predicate WordChar(c: char) {
    'a' <= c <= 'z' || 'A' <= c <= 'Z' || Digit(c) || c == '_'
  }

  function Upper(c: char): char {
    if 'a' <= c <= 'z' then (c as int - 32) as char else c
  }

  function Min(a: int, b: int): int { if a <= b then a else b }

  function Max(a: int, b: int): int { if a <= b then b else a }

  function Lesser(a: real, b: real): real { if a <= b then a else b }

  function Greater(a: real, b: real): real { if a <= b then b else a }
}
