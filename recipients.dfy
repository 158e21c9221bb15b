/** Parsing of the assignee, reviewer and team-reviewer settings into lists of
    account or team names (`parse_into_list`). */
module Recipients {
  import opened Wrappers
  import opened Strings

  /** The setting with every `"` and then every `'` deleted. */
  function Unquoted(s: string): (r: string)
    ensures '"' !in r && '\'' !in r
    ensures |r| <= |s|
  {
    var once := RemoveAll(s, "\"");
    RemoveCharIsWithout(s, '"');
    RemoveCharIsWithout(once, '\'');
    WithoutKeeps(once, '\'', '"');
    RemoveAll(once, "'")
  }

  /** A space-separated, optionally quoted list of names, as configured, becomes the
      ordered list of its pieces between single spaces, each stripped of surrounding
      whitespace. An unset, empty or quotes-only setting gives the empty list, and only
      those do. */
  function ParseIntoList(values: Option<string>): (r: seq<string>)
    ensures r == [] <==> values.None? || Unquoted(values.value) == []
    ensures r != [] ==> |r| == Count(Unquoted(values.value), ' ') + 1
  {
    if values.None? || values.value == [] then []
    else
      var v := Unquoted(values.value);
      if v == [] then []
      else
        var pieces := Split(v, ' ');
        seq(|pieces|, i requires 0 <= i < |pieces| => Strip(pieces[i], IsWhitespace))
  }

  /** Quote removal is filtering out both quote characters, keeping the rest in order. */
  lemma UnquotedIsFiltered(s: string)
    ensures Unquoted(s) == Without(Without(s, '"'), '\'')
    ensures '"' !in Unquoted(s) && '\'' !in Unquoted(s)
  {
    RemoveCharIsWithout(s, '"');
    RemoveCharIsWithout(RemoveAll(s, "\""), '\'');
  }

  /** A setting without quotes is taken as it is. */
  lemma UnquotedAbsent(s: string)
    requires '"' !in s && '\'' !in s
    ensures Unquoted(s) == s
  {
    UnquotedIsFiltered(s);
    WithoutAbsent(s, '"');
    WithoutAbsent(s, '\'');
  }

  /** No parsed name contains a quote or a space. */
  lemma ParsedNamesClean(values: Option<string>)
    ensures forall i :: 0 <= i < |ParseIntoList(values)| ==>
      '"' !in ParseIntoList(values)[i] && '\'' !in ParseIntoList(values)[i] && ' ' !in ParseIntoList(values)[i]
  {
    if values.Some? && Unquoted(values.value) != [] {
      var v := Unquoted(values.value);
      UnquotedIsFiltered(values.value);
      var pieces := Split(v, ' ');
      assert forall i :: 0 <= i < |pieces| ==> CharsWithin(pieces[i], v);
    }
  }

  /** When the setting holds no whitespace other than plain spaces, the parsed names
      joined by single spaces give back the unquoted setting: nothing is lost, reordered
      or merged, duplicates included. */
  lemma ParseJoinRoundTrip(s: string)
    requires forall i :: 0 <= i < |s| ==> s[i] == ' ' || !IsWhitespace(s[i])
    requires Unquoted(s) != []
    ensures Join(ParseIntoList(Some(s)), ' ') == Unquoted(s)
  {
    var v := Unquoted(s);
    var inner := RemoveAll(s, "\"");
    forall c | c in v ensures c == ' ' || !IsWhitespace(c) {
      RemoveAllChars(inner, "'", c);
      RemoveAllChars(s, "\"", c);
    }
    var pieces := Split(v, ' ');
    forall i | 0 <= i < |pieces| ensures Strip(pieces[i], IsWhitespace) == pieces[i] {
      assert CharsWithin(pieces[i], v);
      if pieces[i] != [] {
        assert pieces[i][0] in pieces[i];
        assert pieces[i][|pieces[i]| - 1] in pieces[i];
      }
    }
    assert ParseIntoList(Some(s)) == pieces;
    JoinSplit(v, ' ');
  }

  /** Parsing a setting whose unquoted text splits into pieces with no surrounding
      whitespace gives exactly those pieces. */
  lemma ParseOfPieces(s: string, pieces: seq<string>)
    requires Unquoted(s) != [] && Split(Unquoted(s), ' ') == pieces
    requires forall i :: 0 <= i < |pieces| ==>
      pieces[i] == [] || (!IsWhitespace(pieces[i][0]) && !IsWhitespace(pieces[i][|pieces[i]| - 1]))
    ensures ParseIntoList(Some(s)) == pieces
  {
  }

  /** Quoting each of two names, with either quote character, does not change them. */
  lemma UnquotedQuotedPair(a: string, b: string)
    requires '"' !in a && '\'' !in a && '"' !in b && '\'' !in b
    ensures Unquoted("'" + a + "' \"" + b + "\"") == a + " " + b
  {
    var s := "'" + a + "' \"" + b + "\"";
    var head := "'" + a + "' ";
    assert s == head + ['"'] + b + ['"'];
    WithoutAround(head, b, '"');
    var mid := head + b;
    var tail := " " + b;
    assert mid == [] + ['\''] + a + ['\''] + tail;
    WithoutAround([], a, '\'');
    WithoutConcat([] + ['\''] + a + ['\''], tail, '\'');
    WithoutAbsent(tail, '\'');
    UnquotedIsFiltered(s);
  }

  /** Two names without quotes or spaces, separated by one space, parse to that pair. */
  lemma {:induction false} ParsePair(s: string, a: string, b: string)
    requires a != [] && b != [] && ' ' !in a && ' ' !in b
    requires !IsWhitespace(a[0]) && !IsWhitespace(a[|a| - 1])
    requires !IsWhitespace(b[0]) && !IsWhitespace(b[|b| - 1])
    requires Unquoted(s) == a + " " + b
    ensures ParseIntoList(Some(s)) == [a, b]
  {
    assert a + " " + b == a + [' '] + b;
    SplitAt(a, b, ' ');
    SplitNoSep(b, ' ');
    ParseOfPieces(s, [a, b]);
  }

  /** Any setting whose unquoted text is `alice bob` parses to those two names. */
  lemma ParseToAliceBob(s: string)
    requires Unquoted(s) == "alice bob"
    ensures ParseIntoList(Some(s)) == ["alice", "bob"]
  {
    ParsePair(s, "alice", "bob");
  }

  /** Two plain names separated by a space parse to that pair. */
  lemma ParsePlainNames()
    ensures ParseIntoList(Some("alice bob")) == ["alice", "bob"]
  {
    UnquotedAbsent("alice bob");
    ParseToAliceBob("alice bob");
  }

  /** The same two names, quoted with either quote character, parse alike. */
  lemma ParseQuotedNames()
    ensures ParseIntoList(Some("'alice' \"bob\"")) == ["alice", "bob"]
  {
    var s := "'alice' \"bob\"";
    assert s == "'" + "alice" + "' \"" + "bob" + "\"";
    UnquotedQuotedPair("alice", "bob");
    ParseToAliceBob(s);
  }

  /** A setting made only of quotes counts as empty. */
  lemma ParseQuotesOnly()
    ensures ParseIntoList(Some("''")) == []
    ensures ParseIntoList(Some("")) == [] && ParseIntoList(None) == []
  {
    UnquotedIsFiltered("''");
  }

  /** Any setting whose unquoted text is a single space parses to two empty names. */
  lemma ParseToTwoBlanks(s: string)
    requires Unquoted(s) == " "
    ensures ParseIntoList(Some(s)) == ["", ""]
  {
    assert " " == [] + [' '] + [];
    SplitAt([], [], ' ');
    ParseOfPieces(s, ["", ""]);
  }

  /** Any setting whose unquoted text is `a  b` parses to an empty name between the two. */
  lemma ParseToGap(s: string)
    requires Unquoted(s) == "a  b"
    ensures ParseIntoList(Some(s)) == ["a", "", "b"]
  {
    assert "a  b" == "a" + [' '] + ([] + [' '] + "b");
    SplitAt("a", [] + [' '] + "b", ' ');
    SplitAt([], "b", ' ');
    SplitNoSep("b", ' ');
    ParseOfPieces(s, ["a", "", "b"]);
  }

  /** A whitespace-only setting is not empty: a single space gives two empty names. */
  lemma ParseSingleSpace()
    ensures ParseIntoList(Some(" ")) == ["", ""]
  {
    UnquotedAbsent(" ");
    ParseToTwoBlanks(" ");
  }

  /** A doubled space between two names gives an empty name between them. */
  lemma ParseDoubleSpace()
    ensures ParseIntoList(Some("a  b")) == ["a", "", "b"]
  {
    UnquotedAbsent("a  b");
    ParseToGap("a  b");
  }
}
