/**
 The texts an uninstall reads: what a queue's entry for one host offers and starts, and
 which commands run as another user.
 */
module EntryTexts {
  import opened Text
  import opened Scheduler
  import opened Uninstaller

  /** A host or PE name as an entry holds it. */
  predicate Word(w: string) {
    w != "" && forall c | c in w :: c != '[' && c != ']' && c != '=' && c != ' ' && c != ','
  }

  /** No character of the word separates words. */
  ghost predicate Unbroken(w: string, sep: char -> bool) {
    w != "" && forall i | 0 <= i < |w| :: !sep(w[i])
  }

  /** The names of a list, each behind a blank, and the bracket that ends the entry. */
  function Listing(pes: seq<string>): string {
    if pes == [] then "]" else " " + pes[0] + Listing(pes[1..])
  }

  lemma ListingStarts(pes: seq<string>)
    ensures Listing(pes) != "" && (Listing(pes)[0] == ' ' || Listing(pes)[0] == ']')
  {
  }

  lemma NothingListed(sep: char -> bool)
    requires sep(']')
    ensures FieldsFunc(Listing([]), sep) == []
  {
    assert Listing([])[1..] == "";
  }

  lemma ListingStep(w: string, more: seq<string>, sep: char -> bool)
    requires sep(' ') && sep(']') && Unbroken(w, sep)
    ensures FieldsFunc(Listing([w] + more), sep) == [w] + FieldsFunc(Listing(more), sep)
  {
    WordFirst(w, more, sep);
    FieldsAre(w, ' ', w + Listing(more), sep);
    assert ([w] + more)[1..] == more;
    assert Listing([w] + more) == [' '] + (w + Listing(more));
  }

  lemma {:induction false} ListingWords(pes: seq<string>, sep: char -> bool)
    requires sep(' ') && sep(']') && forall i | 0 <= i < |pes| :: Unbroken(pes[i], sep)
    ensures FieldsFunc(Listing(pes), sep) == pes
    decreases |pes|
  {
    if pes == [] {
      NothingListed(sep);
    } else {
      ListingWords(pes[1..], sep);
      ListingStep(pes[0], pes[1..], sep);
      assert [pes[0]] + pes[1..] == pes;
    }
  }

  lemma WordFirst(w: string, more: seq<string>, sep: char -> bool)
    requires sep(' ') && sep(']') && Unbroken(w, sep)
    ensures FieldsFunc(w + Listing(more), sep) == [w] + FieldsFunc(Listing(more), sep)
  {
    var rest := Listing(more);
    ListingStarts(more);
    assert rest == [rest[0]] + rest[1..];
    FieldsAre(w, rest[0], rest[1..], sep);
    assert w + rest == w + [rest[0]] + rest[1..];
  }

  lemma EntryFields(host: string, rest: string, words: seq<string>, sep: char -> bool)
    requires sep('[') && sep('=') && Unbroken(host, sep) && FieldsFunc(rest, sep) == words
    ensures FieldsFunc(['['] + (host + ['='] + rest), sep) == [host] + words
  {
    FieldsAre(host, '=', rest, sep);
    FieldsAre(host, '[', host + ['='] + rest, sep);
  }

  lemma EntryRegroups(host: string, pe: string, rest: string)
    ensures "[" + host + "=" + pe + rest == ['['] + (host + ['='] + (pe + rest))
  {
  }

  lemma WordIsUnbroken(w: string)
    requires Word(w)
    ensures Unbroken(w, OverrideSeps())
  {
    assert forall i | 0 <= i < |w| :: w[i] in w;
  }

  /** "[host=a b c]" offers a, b and c there, and nothing else. */
  lemma EntryWords(host: string, pe: string, more: seq<string>)
    requires Word(host) && Word(pe) && forall i | 0 <= i < |more| :: Word(more[i])
    ensures OverrideWords("[" + host + "=" + pe + Listing(more)) == [host, pe] + more
  {
    WordIsUnbroken(host);
    WordIsUnbroken(pe);
    forall i | 0 <= i < |more|
      ensures Unbroken(more[i], OverrideSeps())
    {
      WordIsUnbroken(more[i]);
    }
    EntryRegroups(host, pe, Listing(more));
    EntryFieldsAre("[" + host + "=" + pe + Listing(more), host, pe, more, OverrideSeps());
  }

  lemma EntryFieldsAre(text: string, host: string, pe: string, more: seq<string>, sep: char -> bool)
    requires sep(' ') && sep(']') && sep('[') && sep('=') && Unbroken(host, sep) && Unbroken(pe, sep)
    requires forall i | 0 <= i < |more| :: Unbroken(more[i], sep)
    requires text == ['['] + (host + ['='] + (pe + Listing(more)))
    ensures FieldsFunc(text, sep) == [host, pe] + more
  {
    PEsFirst(pe, more, sep);
    EntryFields(host, pe + Listing(more), [pe] + more, sep);
    TwoFirst(host, pe, more);
  }

  lemma PEsFirst(pe: string, more: seq<string>, sep: char -> bool)
    requires sep(' ') && sep(']') && Unbroken(pe, sep) && forall i | 0 <= i < |more| :: Unbroken(more[i], sep)
    ensures FieldsFunc(pe + Listing(more), sep) == [pe] + more
  {
    ListingWords(more, sep);
    WordFirst(pe, more, sep);
  }

  lemma TwoFirst<X>(a: X, b: X, more: seq<X>)
    ensures [a] + ([b] + more) == [a, b] + more
  {
  }

  lemma TrimEntry(t: string)
    requires t != "" && t[0] != '[' && t[0] != ']' && t[|t| - 1] != '[' && t[|t| - 1] != ']'
    ensures TrimBrackets("[" + t + "]") == t
  {
    var all := "[" + t + "]";
    assert all[0] == '[' && all[1..] == t + "]";
    assert (t + "]")[0] == t[0] && (t + "]")[..|t|] == t;
    assert TrimBrackets(t + "]") == TrimBrackets(t) == t;
  }

  /** "[host=command]" starts jobs there with that command. */
  lemma EntryStarts(host: string, command: string, inTree: string -> bool)
    requires Word(host) && command != ""
    requires command[|command| - 1] != '[' && command[|command| - 1] != ']'
    ensures OverrideInTree("[" + host + "=" + command + "]", inTree) <==> inTree(command)
  {
    var t := host + ['='] + command;
    assert host[0] in host && t[0] == host[0] && t[|t| - 1] == command[|command| - 1];
    TrimEntry(t);
    IndexOfFirst(host, '=', command);
    assert t[|host| + 1..] == command;
    assert "[" + host + "=" + command + "]" == "[" + t + "]";
  }

  /** A command, its arguments behind a blank, runs as another user exactly when its first
      word names one in front of an '@' before any '/'. */
  lemma OtherUserIff(w: string, arguments: string)
    requires w != "" && forall i | 0 <= i < |w| :: !IsSpace(w[i])
    requires arguments == "" || IsSpace(arguments[0])
    ensures RunsAsOtherUser(w + arguments)
       <==> exists i :: 0 < i < |w| && w[i] == '@' && '@' !in w[..i] && '/' !in w[..i]
  {
    FirstField(w, arguments);
    var i := IndexOf(w, '@');
    if j :| 0 < j < |w| && w[j] == '@' && '@' !in w[..j] && '/' !in w[..j] {
      IndexOfFirst(w[..j], '@', w[j + 1..]);
      assert w == w[..j] + ['@'] + w[j + 1..];
    }
  }

  lemma FirstField(w: string, arguments: string)
    requires w != "" && forall i | 0 <= i < |w| :: !IsSpace(w[i])
    requires arguments == "" || IsSpace(arguments[0])
    ensures Fields(w + arguments) != [] && Fields(w + arguments)[0] == w
  {
    if arguments == "" {
      FieldsAre(w, ' ', "", Spaces());
      assert w + arguments == w;
    } else {
      FieldsAre(w, arguments[0], arguments[1..], Spaces());
      assert w + arguments == w + [arguments[0]] + arguments[1..];
    }
  }
}
