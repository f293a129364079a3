/**
 * String helpers shared by the ingestion scripts and the client: the JavaScript
 * white-space class, ASCII lower-casing, substring search, and the leftmost /
 * rightmost searches that regular-expression matching reduces to.
 */
module Text {
  import opened Wrappers

  /** The characters matched by JavaScript's `\s` and removed by `String.prototype.trim`. */
  predicate IsSpace(c: char) {
    c == ' ' || c == '\t' || c == '\n' || c == '\r' || c == '\U{000B}' || c == '\U{000C}'
    || c == '\U{00A0}' || c == '\U{1680}' || ('\U{2000}' <= c <= '\U{200A}')
    || c == '\U{2028}' || c == '\U{2029}' || c == '\U{202F}' || c == '\U{205F}'
    || c == '\U{3000}' || c == '\U{FEFF}'
  }

  /** A string is truthy in JavaScript when it is present and not empty. */
  predicate Truthy(s: Option<string>) {
    s.Some? && s.value != ""
  }

  /** `s || fallback` for an optional string. */
  function OrElse(s: Option<string>, fallback: string): (r: string)
    ensures Truthy(s) ==> r == s.value
    ensures !Truthy(s) ==> r == fallback
  {
    if Truthy(s) then s.value else fallback
  }

  function LowerChar(c: char): char {
    if 'A' <= c <= 'Z' then (c as int + 32) as char else c
  }

  /** Lower-casing, restricted to ASCII letters. */
  function Lower(s: string): (r: string)
    ensures |r| == |s|
    ensures forall i :: 0 <= i < |s| ==> r[i] == LowerChar(s[i])
  {
    seq(|s|, i requires 0 <= i < |s| => LowerChar(s[i]))
  }

  lemma LowerIdempotent(s: string)
    ensures Lower(Lower(s)) == Lower(s)
  {
  }

  /** `p` occurs in `s` at index `i`. */
  predicate StartsAt(s: string, p: string, i: int) {
    0 <= i && i + |p| <= |s| && s[i..i + |p|] == p
  }

  ghost predicate Occurs(s: string, p: string) {
    exists i :: StartsAt(s, p, i)
  }

  /** `s.indexOf(p, from)`: the first index at or after `from` where `p` occurs, or -1. */
  function IndexOfFrom(s: string, p: string, from: nat): (r: int)
    decreases |s| - from
    ensures r == -1 || (from <= r && StartsAt(s, p, r))
    ensures forall i :: from <= i && (r == -1 || i < r) ==> !StartsAt(s, p, i)
  {
    if from + |p| > |s| then -1
    else if s[from..from + |p|] == p then from
    else IndexOfFrom(s, p, from + 1)
  }

  function IndexOf(s: string, p: string): (r: int)
    ensures r == -1 || StartsAt(s, p, r)
    ensures r == -1 <==> !Occurs(s, p)
  {
    IndexOfFrom(s, p, 0)
  }

  /** `s.includes(p)` (JavaScript) or `p in s` (Python). */
  predicate Contains(s: string, p: string) {
    IndexOf(s, p) != -1
  }

  /** `s.replace(p, q)` with a string pattern: only the first occurrence is replaced. */
  function ReplaceFirst(s: string, p: string, q: string): (r: string)
    ensures !Occurs(s, p) ==> r == s
    ensures Occurs(s, p) ==> exists i :: StartsAt(s, p, i) && r == s[..i] + q + s[i + |p|..]
  {
    var i := IndexOf(s, p);
    if i == -1 then s else s[..i] + q + s[i + |p|..]
  }

  /** The end of the longest run of characters outside `stop` starting at `j`. */
  function RunEnd(s: string, j: nat, stop: char -> bool): (e: nat)
    requires j <= |s|
    decreases |s| - j
    ensures j <= e <= |s|
    ensures forall k :: j <= k < e ==> !stop(s[k])
    ensures e < |s| ==> stop(s[e])
  {
    if j == |s| || stop(s[j]) then j else RunEnd(s, j + 1, stop)
  }

  /** The least index in `[from, to]` at which `f` matches, or -1. */
  function Leftmost<T>(f: nat -> Option<T>, from: nat, to: nat): (r: int)
    decreases to - from
    ensures r == -1 || (from <= r <= to && f(r).Some?)
    ensures forall i :: from <= i <= to && (r == -1 || i < r) ==> f(i).None?
  {
    if from > to then -1 else if f(from).Some? then from else Leftmost(f, from + 1, to)
  }

  /** The greatest index in `[lo, hi)` at which `f` matches, or -1. */
  function Rightmost<T>(f: nat -> Option<T>, lo: nat, hi: nat): (r: int)
    decreases hi
    ensures r == -1 || (lo <= r < hi && f(r).Some?)
    ensures forall i :: lo <= i < hi && r < i ==> f(i).None?
  {
    if hi <= lo then -1 else if f(hi - 1).Some? then hi - 1 else Rightmost(f, lo, hi - 1)
  }
}
