/**
 * The two pieces of java.lang.String behaviour the services depend on:
 * equalsIgnoreCase (role, username, password and empty-token comparisons)
 * and split("-") (the statement date rewrite).
 */
module JavaText {

  /** Character.toLowerCase on ASCII letters; every other character is left alone. */
  function Lower(c: char): char
  {
    if 'A' <= c <= 'Z' then (c as int + 32) as char else c
  }

  /** String.equalsIgnoreCase, with ASCII case folding. */
  predicate EqualsIgnoreCase(a: string, b: string)
  {
    |a| == |b| && forall i :: 0 <= i < |a| ==> Lower(a[i]) == Lower(b[i])
  }

  /** Only the empty string equals "" ignoring case: `s.equalsIgnoreCase("")` is an emptiness test. */
  lemma EqualsIgnoreCaseEmpty(s: string)
    ensures EqualsIgnoreCase(s, "") <==> s == ""
  {
  }

  /**
   * Every '-'-separated piece of s, empty pieces included, in order
   * (what String.split("-", -1) returns).
   */
  function Pieces(s: string): (r: seq<string>)
    ensures |r| >= 1
    ensures forall i :: 0 <= i < |r| ==> '-' !in r[i]
    ensures '-' !in s ==> r == [s]
  {
    if s == [] then [""]
    else if s[0] == '-' then [""] + Pieces(s[1..])
    else
      var rest := Pieces(s[1..]);
      assert '-' !in s ==> '-' !in s[1..] && [s[0]] + s[1..] == s;
      [[s[0]] + rest[0]] + rest[1..]
  }

  /** The pieces glued back together with '-' between them. */
  function Join(parts: seq<string>): string
  {
    if parts == [] then ""
    else if |parts| == 1 then parts[0]
    else parts[0] + "-" + Join(parts[1..])
  }

  /** Splitting on '-' loses nothing: joining the pieces gives back the string. */
  lemma {:induction false} JoinPieces(s: string)
    ensures Join(Pieces(s)) == s
    decreases |s|
  {
    if s == [] {
    } else if s[0] == '-' {
      JoinPieces(s[1..]);
      assert s == "-" + s[1..];
    } else {
      var rest := Pieces(s[1..]);
      JoinPieces(s[1..]);
      if |rest| == 1 {
        assert Pieces(s) == [[s[0]] + rest[0]];
      } else {
        assert Pieces(s) == [[s[0]] + rest[0]] + rest[1..];
        assert Join(rest) == rest[0] + "-" + Join(rest[1..]);
        assert Join(Pieces(s)) == [s[0]] + rest[0] + "-" + Join(rest[1..]);
      }
      assert s == [s[0]] + s[1..];
    }
  }

  /** A dash-free head is split off as the first piece. */
  lemma {:induction false} PiecesCons(x: string, y: string)
    requires '-' !in x
    ensures Pieces(x + "-" + y) == [x] + Pieces(y)
    decreases |x|
  {
    if x == [] {
      assert x + "-" + y == "-" + y;
      assert ("-" + y)[1..] == y;
    } else {
      PiecesCons(x[1..], y);
      var s := x + "-" + y;
      assert s[0] == x[0];
      assert s[1..] == x[1..] + "-" + y;
      assert [x[0]] + x[1..] == x;
    }
  }

  /** Removes the empty strings at the end, as String.split does. */
  function DropTrailingEmpty(r: seq<string>): (t: seq<string>)
    ensures t <= r
    ensures t == [] || t[|t| - 1] != ""
    ensures forall i :: |t| <= i < |r| ==> r[i] == ""
  {
    if r == [] || r[|r| - 1] != "" then r else DropTrailingEmpty(r[..|r| - 1])
  }

  /**
   * String.split("-"): a string without a dash comes back whole (the empty
   * string included); otherwise the pieces, with trailing empty ones dropped.
   */
  function Split(s: string): (r: seq<string>)
    ensures forall i :: 0 <= i < |r| ==> '-' !in r[i]
    ensures '-' !in s ==> r == [s]
    ensures r <= Pieces(s)
    ensures '-' in s ==> r == [] || r[|r| - 1] != ""
    ensures forall i :: |r| <= i < |Pieces(s)| ==> Pieces(s)[i] == ""
  {
    if '-' !in s then [s] else DropTrailingEmpty(Pieces(s))
  }
}
