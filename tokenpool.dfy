/** The credential pool behind the upload and clear handlers: the in-memory
    token list and the durable token file, kept as a sequence of the lines
    written to it. */
module TokenPool {
  import opened PyText

  /** The upload handler's test for one line of the form text: the line is not
      blank once stripped, and the line as received does not start with `#`.
      The `#` test looks at the unstripped line, so an indented `#` passes. */
  predicate Kept(line: string)
  {
    Strip(line) != [] && !(|line| > 0 && line[0] == '#')
  }

  /** The tokens that the lines contribute, in input order: each kept line, stripped. */
  function Accepted(lines: seq<string>): seq<string>
  {
    if lines == [] then []
    else (if Kept(lines[0]) then [Strip(lines[0])] else []) + Accepted(lines[1..])
  }

  /** The tokens an upload of `text` appends to the pool. */
  function Tokens(text: string): seq<string>
  {
    Accepted(Split(text))
  }

  /** The lines of the token file written for `tokens`: each token followed by a line feed. */
  function Framed(tokens: seq<string>): seq<string>
  {
    if tokens == [] then [] else [tokens[0] + "\n"] + Framed(tokens[1..])
  }

  /** The contents of the token file made of the given lines. */
  function FileText(lines: seq<string>): string
  {
    if lines == [] then [] else lines[0] + FileText(lines[1..])
  }

  /** A token that, once written to the token file, would be kept again by the
      upload filter: non-empty, already stripped, no line feed, no leading `#`. */
  ghost predicate Reloadable(t: string)
  {
    t != [] && Strip(t) == t && '\n' !in t && t[0] != '#'
  }

  /** Filtering distributes over concatenation: lines are judged one at a time. */
  lemma {:induction false} AcceptedAppend(a: seq<string>, b: seq<string>)
    ensures Accepted(a + b) == Accepted(a) + Accepted(b)
  {
    if a != [] {
      assert (a + b)[0] == a[0];
      assert (a + b)[1..] == a[1..] + b;
      AcceptedAppend(a[1..], b);
    } else {
      assert a + b == b;
    }
  }

  /** One line contributes its stripped form when it is kept, and nothing otherwise. */
  lemma AcceptedOne(line: string)
    ensures Accepted([line]) == if Kept(line) then [Strip(line)] else []
  {
    assert [line][1..] == [];
  }

  /** The file lines of two batches of tokens are the file lines of each, in order. */
  lemma {:induction false} FramedAppend(a: seq<string>, b: seq<string>)
    ensures Framed(a + b) == Framed(a) + Framed(b)
  {
    if a != [] {
      assert (a + b)[1..] == a[1..] + b;
      FramedAppend(a[1..], b);
    } else {
      assert a + b == b;
    }
  }

  /** `idx` lists, in strictly increasing order, the positions of exactly the
      kept lines of `lines`, and `tokens` holds those lines stripped. */
  ghost predicate KeptPositions(lines: seq<string>, idx: seq<int>, tokens: seq<string>)
  {
    |idx| == |tokens|
    && (forall k :: 0 <= k < |idx| ==> 0 <= idx[k] < |lines|)
    && (forall k, m :: 0 <= k < m < |idx| ==> idx[k] < idx[m])
    && (forall k :: 0 <= k < |idx| ==> Kept(lines[idx[k]]) && tokens[k] == Strip(lines[idx[k]]))
    && (forall i :: 0 <= i < |lines| && Kept(lines[i]) ==> i in idx)
  }

  /** Upload keeps exactly the kept lines, stripped, in input order: there is a
      strictly increasing list of line positions that names every kept line and
      nothing else, and the tokens are those lines stripped. */
  lemma {:induction false} AcceptedExactly(lines: seq<string>)
    ensures exists idx :: KeptPositions(lines, idx, Accepted(lines))
  {
    if lines == [] {
      assert KeptPositions(lines, [], Accepted(lines));
    } else {
      var pre, last := lines[..|lines| - 1], lines[|lines| - 1];
      assert lines == pre + [last];
      AcceptedExactly(pre);
      var idx0 :| KeptPositions(pre, idx0, Accepted(pre));
      AcceptedAppend(pre, [last]);
      AcceptedOne(last);
      if Kept(last) {
        KeptPositionsKept(pre, last, idx0, Accepted(pre));
        assert KeptPositions(lines, idx0 + [|pre|], Accepted(lines));
      } else {
        KeptPositionsSkipped(pre, last, idx0, Accepted(pre));
        assert Accepted(pre) + [] == Accepted(pre);
      }
    }
  }

  /** A rejected last line adds no position. */
  lemma KeptPositionsSkipped(pre: seq<string>, last: string, idx: seq<int>, tokens: seq<string>)
    requires !Kept(last)
    requires KeptPositions(pre, idx, tokens)
    ensures KeptPositions(pre + [last], idx, tokens)
  {
    var lines := pre + [last];
    forall k | 0 <= k < |idx| ensures Kept(lines[idx[k]]) && tokens[k] == Strip(lines[idx[k]]) {
      assert lines[idx[k]] == pre[idx[k]];
    }
    forall i | 0 <= i < |lines| && Kept(lines[i]) ensures i in idx {
      assert i < |pre| && lines[i] == pre[i];
    }
  }

  /** A kept last line adds its own position and its stripped form. */
  lemma KeptPositionsKept(pre: seq<string>, last: string, idx: seq<int>, tokens: seq<string>)
    requires Kept(last)
    requires KeptPositions(pre, idx, tokens)
    ensures KeptPositions(pre + [last], idx + [|pre|], tokens + [Strip(last)])
  {
    var lines := pre + [last];
    var idx1, toks1 := idx + [|pre|], tokens + [Strip(last)];
    forall k | 0 <= k < |idx1| ensures Kept(lines[idx1[k]]) && toks1[k] == Strip(lines[idx1[k]]) {
      if k < |idx| {
        assert idx1[k] == idx[k] && toks1[k] == tokens[k] && lines[idx[k]] == pre[idx[k]];
      }
    }
    forall i | 0 <= i < |lines| && Kept(lines[i]) ensures i in idx1 {
      if i < |pre| {
        assert lines[i] == pre[i];
        var k :| 0 <= k < |idx| && idx[k] == i;
        assert idx1[k] == i;
      } else {
        assert idx1[|idx|] == i;
      }
    }
  }

  /** A token as the pool stores it: non-empty, already stripped, no line feed. */
  ghost predicate WellFormed(t: string)
  {
    t != [] && Strip(t) == t && '\n' !in t
  }

  /** Every token an upload appends is non-empty, already stripped and free of
      line feeds: blank and whitespace-only lines never reach the pool. */
  lemma {:induction false} AcceptedWellFormed(lines: seq<string>)
    requires forall k :: 0 <= k < |lines| ==> '\n' !in lines[k]
    ensures forall k :: 0 <= k < |Accepted(lines)| ==> WellFormed(Accepted(lines)[k])
  {
    if lines != [] {
      var tail := lines[1..];
      AcceptedWellFormed(tail);
      if Kept(lines[0]) {
        StripWellFormed(lines[0]);
        var r := [Strip(lines[0])] + Accepted(tail);
        assert Accepted(lines) == r;
        forall k | 0 <= k < |r| ensures WellFormed(r[k]) {
          if k > 0 {
            assert r[k] == Accepted(tail)[k - 1];
          }
        }
      } else {
        assert Accepted(lines) == Accepted(tail);
      }
    }
  }

  /** A kept line (without line feeds) strips to a well-formed token. */
  lemma StripWellFormed(line: string)
    requires '\n' !in line && Kept(line)
    ensures WellFormed(Strip(line))
  {
    StripIdempotent(line);
    StripKeeps(line, '\n');
  }

  /** Every token an upload of `text` appends is well formed. */
  lemma TokensWellFormed(text: string)
    ensures forall k :: 0 <= k < |Tokens(text)| ==> WellFormed(Tokens(text)[k])
  {
    AcceptedWellFormed(Split(text));
  }

  /** A line whose raw form starts with `#` contributes nothing, and neither
      does a blank or whitespace-only line. */
  lemma RejectedLines(line: string)
    requires (|line| > 0 && line[0] == '#') || AllSpace(line)
    ensures Accepted([line]) == []
  {
    StripSpec(line);
    AcceptedOne(line);
  }

  /** A line that starts and ends with a non-space and does not start with `#`
      is kept as it is. */
  lemma KeptUnpadded(line: string)
    requires line != [] && !IsSpace(line[0]) && !IsSpace(line[|line| - 1]) && line[0] != '#'
    ensures Accepted([line]) == [line]
  {
    StripUnpadded(line);
    AcceptedOne(line);
  }

  /** The token file holds each token on its own line: its text is the tokens
      joined by line feeds, with one final line feed. */
  lemma {:induction false} FileTextJoin(tokens: seq<string>)
    ensures FileText(Framed(tokens)) == Join(tokens + [[]])
  {
    if tokens != [] {
      FileTextJoin(tokens[1..]);
      assert (tokens + [[]])[1..] == tokens[1..] + [[]];
      assert (tokens + [[]])[0] == tokens[0];
      assert tokens[0] + "\n" + Join(tokens[1..] + [[]]) == tokens[0] + ("\n" + Join(tokens[1..] + [[]]));
    } else {
      assert tokens + [[]] == [[]];
    }
  }

  /** Uploading the token file's text again yields exactly the tokens it was
      written from, provided each of them passes the filter on its own. */
  lemma ReloadTokens(tokens: seq<string>)
    requires forall k :: 0 <= k < |tokens| ==> Reloadable(tokens[k])
    ensures Tokens(FileText(Framed(tokens))) == tokens
  {
    FileTextJoin(tokens);
    var lines := tokens + [[]];
    forall k | 0 <= k < |lines| ensures '\n' !in lines[k] {
      if k < |tokens| {
        assert lines[k] == tokens[k] && Reloadable(tokens[k]);
      }
    }
    SplitJoin(lines);
    AcceptedAppend(tokens, [[]]);
    RejectedLines([]);
    AppendNothing(Accepted(tokens));
    AcceptedOfReloadable(tokens);
  }

  /** Lines that each pass the filter unchanged come back as they are. */
  lemma {:induction false} AcceptedOfReloadable(tokens: seq<string>)
    requires forall k :: 0 <= k < |tokens| ==> Reloadable(tokens[k])
    ensures Accepted(tokens) == tokens
  {
    if tokens != [] {
      AcceptedOfReloadable(tokens[1..]);
      assert Reloadable(tokens[0]);
      assert tokens == [tokens[0]] + tokens[1..];
    }
  }

  /** The form text "sk-aaa", "# comment", an empty line and "sk-bbb" adds
      exactly the two keys, in that order. */
  lemma UploadExample()
    ensures Tokens("sk-aaa\n# comment\n\nsk-bbb") == ["sk-aaa", "sk-bbb"]
  {
    ExampleJoin();
    SplitJoin(["sk-aaa", "# comment", "", "sk-bbb"]);
    ExampleFilter();
  }

  /** The example text is its four lines joined by line feeds. */
  lemma ExampleJoin()
    ensures Join(["sk-aaa", "# comment", "", "sk-bbb"]) == "sk-aaa\n# comment\n\nsk-bbb"
  {
    var lines := ["sk-aaa", "# comment", "", "sk-bbb"];
    assert Join(lines[3..]) == "sk-bbb";
    assert Join(lines[2..]) == "\nsk-bbb";
    assert Join(lines[1..]) == "# comment\n\nsk-bbb";
  }

  /** Of the example's four lines, the comment and the empty line are dropped. */
  lemma ExampleFilter()
    ensures Accepted(["sk-aaa", "# comment", "", "sk-bbb"]) == ["sk-aaa", "sk-bbb"]
  {
    KeptUnpadded("sk-aaa");
    RejectedLines("# comment");
    RejectedLines("");
    KeptUnpadded("sk-bbb");
    var a, b, c, d := ["sk-aaa"], ["# comment"], [""], ["sk-bbb"];
    assert ["sk-aaa", "# comment", "", "sk-bbb"] == a + b + c + d;
    AcceptedAppend(a + b + c, d);
    AcceptedAppend(a + b, c);
    AcceptedAppend(a, b);
  }

  /** The `#` test sees the raw line: "  #x" is kept, and stored as "#x". */
  lemma IndentedHashKept()
    ensures Tokens("  #x") == ["#x"]
  {
    SplitJoin(["  #x"]);
    assert TrimLeft("  #x") == "#x" by {
      assert "  #x"[1..] == " #x";
      assert " #x"[1..] == "#x";
    }
    assert TrimRight("#x") == "#x";
    AcceptedOne("  #x");
  }

  /** One more line of the upload loop: the tokens and file lines so far grow
      by the line's contribution. */
  lemma AcceptedStep(lines: seq<string>, k: int)
    requires 0 <= k < |lines|
    ensures Accepted(lines[..k + 1]) == Accepted(lines[..k]) + if Kept(lines[k]) then [Strip(lines[k])] else []
    ensures Framed(Accepted(lines[..k + 1])) ==
      Framed(Accepted(lines[..k])) + if Kept(lines[k]) then [Strip(lines[k]) + "\n"] else []
  {
    assert lines[..k + 1] == lines[..k] + [lines[k]];
    AcceptedAppend(lines[..k], [lines[k]]);
    AcceptedOne(lines[k]);
    var add: seq<string> := if Kept(lines[k]) then [Strip(lines[k])] else [];
    FramedAppend(Accepted(lines[..k]), add);
  }

  /** Appending a batch of tokens to the list and their lines to the file keeps
      what was there as a prefix, makes the new file lines mirror the new list
      entries, and keeps a file that mirrored the list mirroring it. */
  lemma AppendedFacts(tokens: seq<string>, record: seq<string>, added: seq<string>)
    ensures tokens <= tokens + added && record <= record + Framed(added)
    ensures (record + Framed(added))[|record|..] == Framed((tokens + added)[|tokens|..])
    ensures record == Framed(tokens) ==> record + Framed(added) == Framed(tokens + added)
  {
    FramedAppend(tokens, added);
    assert (tokens + added)[|tokens|..] == added;
    assert (record + Framed(added))[|record|..] == Framed(added);
  }

  /** A proof hint, not a model of anything in the handler: sequence
      concatenation is associative. `Upload`'s loop calls it for a kept line. */
  lemma AppendAssoc<T>(a: seq<T>, b: seq<T>, c: seq<T>)
    ensures (a + b) + c == a + (b + c)
  {
  }

  /** A proof hint, not a model of anything in the handler: appending nothing
      changes nothing. `Upload`'s loop calls it for a rejected line. */
  lemma AppendNothing<T>(a: seq<T>)
    ensures a + [] == a
  {
  }

  /** What both handlers answer: `{"status": ..., "tokens_count": ...}`. */
  datatype PoolReply = PoolReply(status: string, tokensCount: nat)

  /** The process-wide token list together with the token file it is persisted to. */
  class CredentialPool {
    /** The in-memory token list, in insertion order; duplicates are allowed. */
    var tokens: seq<string>
    /** The lines of the token file, in the order they were written. */
    var record: seq<string>

    /** The pool as it stands when the handlers first run; loading it is not part of this model. */
    constructor (tokens: seq<string>, record: seq<string>)
      ensures this.tokens == tokens && this.record == record
    {
      this.tokens := tokens;
      this.record := record;
    }

    /** The token file holds exactly one line per pooled token, in the same order. */
    ghost predicate Mirrored()
      reads this
    {
      record == Framed(tokens)
    }

    /** The upload handler: appends every kept line of `text`, stripped, to the
        token list and writes the same token plus a line feed to the token file. */
    method Upload(text: string) returns (reply: PoolReply)
      modifies this
      ensures tokens == old(tokens) + Tokens(text)
      ensures record == old(record) + Framed(Tokens(text))
      ensures old(tokens) <= tokens && old(record) <= record
      ensures record[|old(record)|..] == Framed(tokens[|old(tokens)|..])
      ensures old(Mirrored()) ==> Mirrored()
      ensures reply == PoolReply("success", |tokens|)
    {
      var lines := Split(text);
      for k := 0 to |lines|
        invariant tokens == old(tokens) + Accepted(lines[..k])
        invariant record == old(record) + Framed(Accepted(lines[..k]))
      {
        var line := lines[k];
        AcceptedStep(lines, k);
        if Kept(line) {
          AppendAssoc(old(tokens), Accepted(lines[..k]), [Strip(line)]);
          AppendAssoc(old(record), Framed(Accepted(lines[..k])), [Strip(line) + "\n"]);
          tokens := tokens + [Strip(line)];
          record := record + [Strip(line) + "\n"];
        } else {
          AppendNothing(Accepted(lines[..k]));
          AppendNothing(Framed(Accepted(lines[..k])));
        }
      }
      assert lines[..|lines|] == lines;
      AppendedFacts(old(tokens), old(record), Tokens(text));
      reply := PoolReply("success", |tokens|);
    }

    /** The clear handler: empties the token list and truncates the token file. */
    method Clear() returns (reply: PoolReply)
      modifies this
      ensures tokens == [] && record == []
      ensures Mirrored()
      ensures reply == PoolReply("success", 0)
    {
      tokens := [];
      record := [];
      reply := PoolReply("success", |tokens|);
    }
  }
}
