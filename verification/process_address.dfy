/**
 * The Hyperware process address `node@process:package:publisher`, as
 * `str::parse::<Address>()` of `hyperware_process_lib` reads it: the text
 * is split on '@', the node is the first piece, and the second piece must
 * split on ':' into exactly three segments (process, package, publisher).
 * Text after a second '@' is not looked at. `Split` is `str::split` with a
 * single-character separator.
 */
module ProcessAddress {
  import opened Amounts

  /** `s.split(sep)`: the pieces between separators, one more piece than there are separators. */
  function Split(s: string, sep: char): (parts: seq<string>)
    ensures |parts| >= 1
    ensures forall i :: 0 <= i < |parts| ==> sep !in parts[i]
  {
    if |s| == 0 then [""]
    else
      var rest := Split(s[1..], sep);
      if s[0] == sep then [""] + rest
      else
        var parts := [[s[0]] + rest[0]] + rest[1..];
        assert forall i :: 1 <= i < |parts| ==> parts[i] == rest[i];
        parts
  }

  /** The pieces put back together with `sep` between them. */
  function Join(parts: seq<string>, sep: char): string
    requires |parts| >= 1
  {
    if |parts| == 1 then parts[0] else parts[0] + [sep] + Join(parts[1..], sep)
  }

  /** `str::parse::<Address>()` succeeds. */
  predicate IsProcessAddress(s: string) {
    var atParts := Split(s, '@');
    |atParts| >= 2 && |Split(atParts[1], ':')| == 3
  }

  // ---------------------------------------------------------------------------
  // Splitting and joining

  /** Joining the pieces of a split gives the text back. */
  lemma {:induction false} JoinSplit(s: string, sep: char)
    ensures Join(Split(s, sep), sep) == s
  {
    if |s| > 0 {
      var rest := Split(s[1..], sep);
      JoinSplit(s[1..], sep);
      if s[0] == sep {
        assert Split(s, sep)[1..] == rest;
        assert s == [sep] + s[1..];
      } else {
        JoinPrependChar(s[0], rest, sep);
        assert s == [s[0]] + s[1..];
      }
    }
  }

  lemma JoinPrependChar(ch: char, parts: seq<string>, sep: char)
    requires |parts| >= 1
    ensures Join([[ch] + parts[0]] + parts[1..], sep) == [ch] + Join(parts, sep)
  {
    var joined := [[ch] + parts[0]] + parts[1..];
    if |parts| > 1 {
      assert joined[1..] == parts[1..];
    }
  }

  /** Text without the separator is a single piece. */
  lemma {:induction false} SplitWithoutSeparator(s: string, sep: char)
    requires sep !in s
    ensures Split(s, sep) == [s]
  {
    if |s| > 0 {
      assert sep !in s[1..];
      SplitWithoutSeparator(s[1..], sep);
      assert [s[0]] + s[1..] == s;
    }
  }

  /** A separator after a separator-free prefix ends the first piece there. */
  lemma {:induction false} SplitAfterPrefix(a: string, sep: char, b: string)
    requires sep !in a
    ensures Split(a + [sep] + b, sep) == [a] + Split(b, sep)
  {
    var s := a + [sep] + b;
    if |a| == 0 {
      assert s[1..] == b;
    } else {
      assert s[1..] == a[1..] + [sep] + b;
      assert sep !in a[1..];
      SplitAfterPrefix(a[1..], sep, b);
      assert [a[0]] + a[1..] == a;
    }
  }

  // ---------------------------------------------------------------------------
  // Addresses

  /**
   * The `Display` form of an address parses: `node@process:package:publisher`
   * with no '@' in any part and no ':' in the last three.
   */
  lemma FormattedAddressParses(node: string, process: string, package: string, publisher: string)
    requires '@' !in node && '@' !in process && '@' !in package && '@' !in publisher
    requires ':' !in process && ':' !in package && ':' !in publisher
    ensures IsProcessAddress(node + "@" + process + ":" + package + ":" + publisher)
  {
    var rest := package + [':'] + publisher;
    var tail := process + [':'] + rest;
    var s := node + ['@'] + tail;
    assert node + "@" + process + ":" + package + ":" + publisher == s;
    SplitAfterPrefix(node, '@', tail);
    assert '@' !in rest && '@' !in tail;
    SplitWithoutSeparator(tail, '@');
    assert Split(s, '@') == [node, tail];
    SplitAfterPrefix(process, ':', rest);
    SplitAfterPrefix(package, ':', publisher);
    SplitWithoutSeparator(publisher, ':');
    assert Split(tail, ':') == [process, package, publisher];
  }

  /** A node name with its process id, as a user would type it. */
  lemma NodeProcessIsAddress()
    ensures IsProcessAddress("alice.os" + "@" + "hyper-mev" + ":" + "hyper-mev" + ":" + "skeleton.os")
  {
    var node, name, publisher := "alice.os", "hyper-mev", "skeleton.os";
    assert '@' !in node && '@' !in name && '@' !in publisher;
    assert ':' !in name && ':' !in publisher;
    FormattedAddressParses(node, name, name, publisher);
  }

  /** Text without an '@' never parses. */
  lemma WithoutAtSignNoAddress(s: string)
    requires '@' !in s
    ensures !IsProcessAddress(s)
  {
    SplitWithoutSeparator(s, '@');
  }

  /** An ERC-20 token address (40 hex digits, optionally after "0x") is never a process address. */
  lemma TokenAddressIsNoProcessAddress(s: string)
    requires IsAddress(s)
    ensures !IsProcessAddress(s)
  {
    assert forall i :: 0 <= i < |s| && s[i] == '@' ==> !IsHexDigit(s[i]);
    if |s| == 42 {
      assert forall i :: 2 <= i < |s| ==> s[i] == s[2..][i - 2];
    }
    WithoutAtSignNoAddress(s);
  }
}
