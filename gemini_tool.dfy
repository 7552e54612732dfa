/**
  The chat client's conversation state and the steps that change it: loading
  the history for a title, recording one turn (`update_history`), and the
  interactive loop of `start_chat`. The remote model, the console and the
  disk are inputs: the model's replies and the user's lines come in as a
  sequence of exchanges, and the disk is a map from chat title to file.
 */
module GeminiTool {
  import opened Wrappers
  import opened History

  /** `"continue"` or `"exit"`, as returned by `update_history`. */
  datatype Status = Continue | Exit

  /** One round of the loop as the outside world plays it: the line the user
      types and what the remote model returns for the prompt built from it. */
  datatype Exchange = Exchange(text: string, reply: Option<string>)

  /** How `start_chat` stops: through `exit()` after a turn, or because the
      console has no more input (`input()` raises). */
  datatype ChatEnd = SessionExit | InputClosed

  /** The number of turns after which a session loaded with `stored` entries
      and history index `start` is told to exit, under limit `questions`.
      Every file this client writes holds as many turns as its index says,
      and then the budget is exactly the enforced limit. */
  function Budget(stored: nat, questions: int, start: int): (b: int)
    ensures stored == start ==> b == Clamp(questions) >= 1
  {
    Clamp(questions) + start - stored
  }

  /** The limit and window `Client` uses unless told otherwise. */
  const DefaultQuestions: int := 100
  const DefaultContextWindow: int := 15

  /** Every integer key of `es` is at most `n`. */
  ghost predicate KeysAtMost(es: Entries, n: int) {
    forall i :: 0 <= i < |es| && es[i].0.IntKey? ==> es[i].0.n <= n
  }

  /** After its two bookkeeping pairs, `ctx` lists the entries `es`. */
  ghost predicate Mirrors(ctx: seq<Item>, es: Entries) {
    && |ctx| == |es| + 2
    && forall i :: 0 <= i < |es| ==> ctx[i + 2] == TurnItem(es[i].0, es[i].1)
  }

  /** The history and the context of a loaded session: keys are unique,
      every integer key is at most the index (so the next one is new), and
      the context lists the bookkeeping pairs as loaded and then every
      entry. */
  ghost predicate Consistent(title: string, index: int, es: Entries, ctx: seq<Item>) {
    && DistinctKeys(es)
    && KeysAtMost(es, index)
    && |ctx| >= 2
    && ctx[0] == TitleItem(title)
    && ctx[1].IndexItem?
    && Mirrors(ctx, es)
  }

  /** Storing a turn under the next integer key appends it, and appending
      the same pair to the context keeps the two in step. */
  lemma {:induction false} RecordTurn(title: string, n: int, es: Entries, ctx: seq<Item>, t: Turn)
    requires Consistent(title, n - 1, es, ctx)
    ensures Put(es, IntKey(n), t) == es + [(IntKey(n), t)]
    ensures Consistent(title, n, es + [(IntKey(n), t)], ctx + [TurnItem(IntKey(n), t)])
  {
    assert Lookup(es, IntKey(n)).None?;
    PutKeepsDistinct(es, IntKey(n), t);
  }

  /** The entry `e` records the exchange `x` as turn number `index`. */
  ghost predicate RecordedAs(e: (Key, Turn), index: int, x: Exchange) {
    && e.0 == IntKey(index)
    && e.1.response == ProcessResponse(x.reply)
    && IsAugmented(e.1.prompt, x.text)
  }

  /** The entries are the loaded ones followed by one turn for each of the
      first `n` exchanges, numbered on from `start`. */
  ghost predicate Session(es: Entries, loaded: Entries, start: int, exchanges: seq<Exchange>, n: nat) {
    && n <= |exchanges|
    && |es| == |loaded| + n
    && es[..|loaded|] == loaded
    && forall j :: 0 <= j < n ==> RecordedAs(es[|loaded| + j], start + j + 1, exchanges[j])
  }

  /** One more recorded round extends the session by one turn. */
  lemma ExtendSession(es: Entries, es': Entries, loaded: Entries, start: int, exchanges: seq<Exchange>, n: nat)
    requires Session(es, loaded, start, exchanges, n) && n < |exchanges|
    requires |es'| == |es| + 1 && es'[..|es|] == es
    requires RecordedAs(es'[|es|], start + n + 1, exchanges[n])
    ensures Session(es', loaded, start, exchanges, n + 1)
  {
    assert es'[..|loaded|] == es[..|loaded|];
    forall j | 0 <= j < n + 1 ensures RecordedAs(es'[|loaded| + j], start + j + 1, exchanges[j]) {
      if j < n { assert es'[|loaded| + j] == es[|loaded| + j]; }
    }
  }

  /** Each of the first `n` new turns holds the prompt built from the window
      of the context as it stood before that turn: the context at the start
      of the session, `ctx0`, followed by the turns recorded so far. */
  ghost predicate Prompted(es: Entries, loaded: Entries, ctx0: seq<Item>, render: seq<Item> -> string,
                           w: int, exchanges: seq<Exchange>, n: nat) {
    && n <= |exchanges| && |loaded| + n <= |es|
    && forall j :: 0 <= j < n ==> PromptedAt(es, loaded, ctx0, render, w, exchanges, j)
  }

  /** New turn `j` holds the prompt built from the window of the context
      before it. */
  ghost predicate PromptedAt(es: Entries, loaded: Entries, ctx0: seq<Item>, render: seq<Item> -> string,
                             w: int, exchanges: seq<Exchange>, j: nat)
    requires j < |exchanges| && |loaded| + j < |es|
  {
    es[|loaded| + j].1.prompt == BuildPrompt(render(Window(ctx0 + Items(es[|loaded|..|loaded| + j]), w)), exchanges[j].text)
  }

  /** A turn whose prompt was built from the context as it stood extends the
      prompts of the session by one, and extends that context by its item. */
  lemma ExtendPrompted(es: Entries, es': Entries, loaded: Entries, ctx0: seq<Item>, render: seq<Item> -> string,
                       w: int, exchanges: seq<Exchange>, n: nat)
    requires Prompted(es, loaded, ctx0, render, w, exchanges, n) && n < |exchanges| && |es| == |loaded| + n
    requires |es'| == |es| + 1 && es'[..|es|] == es
    requires es'[|es|].1.prompt == BuildPrompt(render(Window(ctx0 + Items(es[|loaded|..]), w)), exchanges[n].text)
    ensures Prompted(es', loaded, ctx0, render, w, exchanges, n + 1)
  {
    forall j | 0 <= j < n + 1 ensures PromptedAt(es', loaded, ctx0, render, w, exchanges, j) {
      if j < n {
        assert PromptedAt(es, loaded, ctx0, render, w, exchanges, j);
        assert es'[|loaded| + j] == es[|loaded| + j];
        var after, before := es'[|loaded|..|loaded| + j], es[|loaded|..|loaded| + j];
        forall k | 0 <= k < j ensures after[k] == before[k] {
          assert es'[|loaded| + k] == es'[..|es|][|loaded| + k];
        }
        assert after == before;
      } else {
        assert es'[|loaded|..|loaded| + j] == es[|loaded|..];
      }
    }
  }

  /** A context that mirrors the entries, and starts with the same two
      bookkeeping pairs as a context `ctx0` mirroring an older prefix of
      them, is `ctx0` followed by the newer entries. */
  lemma MirroredContext(ctx: seq<Item>, es: Entries, ctx0: seq<Item>, loaded: Entries)
    requires Mirrors(ctx, es) && Mirrors(ctx0, loaded)
    requires |loaded| <= |es| && es[..|loaded|] == loaded
    requires ctx[..2] == ctx0[..2]
    ensures ctx == ctx0 + Items(es[|loaded|..])
  {
    var r := ctx0 + Items(es[|loaded|..]);
    forall i | 0 <= i < |ctx| ensures ctx[i] == r[i] {
      if i < 2 {
        assert ctx[i] == ctx[..2][i];
      } else if i < |ctx0| {
        assert es[i - 2] == es[..|loaded|][i - 2];
      }
    }
  }

  /** One round played from a context that mirrors the entries extends both
      the session and its prompts by that round. */
  lemma ExtendRound(es: Entries, es': Entries, ctx: seq<Item>, loaded: Entries, start: int, ctx0: seq<Item>,
                    render: seq<Item> -> string, w: int, exchanges: seq<Exchange>, n: nat)
    requires Session(es, loaded, start, exchanges, n) && n < |exchanges|
    requires Prompted(es, loaded, ctx0, render, w, exchanges, n)
    requires Mirrors(ctx, es) && Mirrors(ctx0, loaded) && |ctx0| >= 2 && ctx[..2] == ctx0[..2]
    requires |es'| == |es| + 1 && es'[..|es|] == es
    requires RecordedAs(es'[|es|], start + n + 1, exchanges[n])
    requires es'[|es|].1.prompt == BuildPrompt(render(Window(ctx, w)), exchanges[n].text)
    ensures Session(es', loaded, start, exchanges, n + 1)
    ensures Prompted(es', loaded, ctx0, render, w, exchanges, n + 1)
  {
    MirroredContext(ctx, es, ctx0, loaded);
    ExtendSession(es, es', loaded, start, exchanges, n);
    ExtendPrompted(es, es', loaded, ctx0, render, w, exchanges, n);
  }

  /** A session that starts from a numbered history leaves a numbered one:
      the new turns carry the next numbers, one per turn. */
  lemma SessionNumbered(title: string, es: Entries, loaded: Entries, start: int, exchanges: seq<Exchange>, n: nat)
    requires Session(es, loaded, start, exchanges, n) && Numbered(Record(title, start, loaded))
    ensures Numbered(Record(title, start + n, es))
  {
    forall i | 0 <= i < |es| ensures es[i].0.n == i + 1 {
      if i < |loaded| {
        assert es[i] == es[..|loaded|][i];
      } else {
        assert RecordedAs(es[|loaded| + (i - |loaded|)], start + (i - |loaded|) + 1, exchanges[i - |loaded|]);
      }
    }
  }

  class Client {
    const model: string
    var questions: int
    const contextWindow: int

    var chatTitle: string
    /** `history["title"]` */
    var title: string
    /** `history["history_index"]` */
    var historyIndex: int
    /** The turn entries of `history`, in insertion order. */
    var entries: Entries
    var context: seq<Item>
    /** `self.history_index`: the index read at the start of the session. */
    var startIndex: int

    /** The history files, by chat title. */
    var disk: map<string, StoredFile>
    /** The content of the response side file. */
    var responseFile: string

    /** The history as a dictionary value. */
    function Current(): Record
      reads this`title, this`historyIndex, this`entries
    {
      Record(title, historyIndex, entries)
    }

    /** The state after a load and any number of updates. */
    ghost predicate Valid()
      reads this`title, this`historyIndex, this`entries, this`context
    {
      Consistent(title, historyIndex, entries, context)
    }

    /** The state after `n` rounds of a session that started from the
        entries `loaded`, the index `start` and the context `ctx0`. */
    ghost predicate Played(loaded: Entries, start: int, ctx0: seq<Item>, render: seq<Item> -> string,
                           exchanges: seq<Exchange>, n: nat)
      reads this`title, this`historyIndex, this`entries, this`context
    {
      && Valid()
      && historyIndex == start + n
      && Session(entries, loaded, start, exchanges, n)
      && |ctx0| >= 2 && context[..2] == ctx0[..2]
      && Prompted(entries, loaded, ctx0, render, contextWindow, exchanges, n)
    }

    constructor (model: string, questions: int, contextWindow: int, disk: map<string, StoredFile>)
      ensures this.model == model && this.questions == questions
      ensures this.contextWindow == contextWindow && this.disk == disk
    {
      this.model := model;
      this.questions := questions;
      this.contextWindow := contextWindow;
      this.disk := disk;
    }

    /** The constructor with its default limit and window, as the entry
        script calls it. */
    constructor Default(model: string, disk: map<string, StoredFile>)
      ensures this.model == model && this.disk == disk
      ensures questions == DefaultQuestions && contextWindow == DefaultContextWindow
    {
      this.model := model;
      this.questions := DefaultQuestions;
      this.contextWindow := DefaultContextWindow;
      this.disk := disk;
    }

    /** `load_history`: the fresh or saved history for `chatTitle`, and the
        context list made from it. */
    method LoadHistory() returns (rec: Record)
      modifies this`title, this`historyIndex, this`entries, this`context
      ensures rec == Current() == LoadRecord(disk, chatTitle)
      ensures context == ContextOf(rec)
      ensures Valid()
    {
      if chatTitle in disk && disk[chatTitle].Json? {
        rec := Reloaded(disk[chatTitle].record);
      } else {
        rec := Record(chatTitle, 0, []);
      }
      title, historyIndex, entries := rec.title, rec.index, rec.entries;
      context := ContextOf(rec);
    }

    /** `save_history`: the file for `chatTitle` now holds the history. */
    method SaveHistory()
      modifies this`disk
      ensures disk == old(disk)[chatTitle := Json(Current())]
    {
      disk := disk[chatTitle := Json(Current())];
    }

    /** `update_history`: enforce the minimum limit, number and store the turn,
        append it to the context, save, and report whether the session's
        budget is used up. */
    method UpdateHistory(prompt: string, response: string) returns (status: Status)
      requires Valid()
      modifies this`questions, this`historyIndex, this`entries, this`context, this`disk
      ensures Valid()
      ensures questions == Clamp(old(questions))
      ensures historyIndex == old(historyIndex) + 1
      ensures entries == old(entries) + [(IntKey(historyIndex), Turn(prompt, response))]
      ensures context == old(context) + [TurnItem(IntKey(historyIndex), Turn(prompt, response))]
      ensures disk == old(disk)[chatTitle := Json(Current())]
      ensures status == Exit <==> |entries| == questions + startIndex
    {
      if questions < 1 {
        questions := 1;
      }
      var n, turn := historyIndex + 1, Turn(prompt, response);
      RecordTurn(title, n, entries, context, turn);
      historyIndex, entries, context := n, Put(entries, IntKey(n), turn), context + [TurnItem(IntKey(n), turn)];
      assert Valid();
      SaveHistory();
      if |entries| == questions + startIndex {
        status := Exit;
      } else {
        status := Continue;
      }
    }

    /** One round of `start_chat`'s loop once the user's line and the
        model's reply are known: build the prompt from the context window,
        record the turn, write the response file, and decide whether to stop.
        The test of the prompt against "exit" never holds (see
        `AugmentedNeverExits`), so the round stops exactly when
        `update_history` says "exit". */
    method ChatTurn(render: seq<Item> -> string, x: Exchange) returns (stop: bool)
      requires Valid()
      modifies this`questions, this`historyIndex, this`entries, this`context, this`disk, this`responseFile
      ensures Valid()
      ensures questions == Clamp(old(questions))
      ensures historyIndex == old(historyIndex) + 1
      ensures |entries| == |old(entries)| + 1 && entries[..|old(entries)|] == old(entries)
      ensures RecordedAs(entries[|old(entries)|], historyIndex, x)
      ensures entries[|old(entries)|].1.prompt == BuildPrompt(render(Window(old(context), contextWindow)), x.text)
      ensures context == old(context) + [TurnItem(IntKey(historyIndex), entries[|old(entries)|].1)]
      ensures disk == old(disk)[chatTitle := Json(Current())]
      ensures responseFile == ProcessResponse(x.reply)
      ensures stop <==> |entries| == questions + startIndex
    {
      var prompt := BuildPrompt(render(Window(context, contextWindow)), x.text);
      var response := ProcessResponse(x.reply);
      var status := UpdateHistory(prompt, response);
      responseFile := response;
      AugmentedNeverExits(prompt, x.text);
      stop := status == Exit || PromptSaysExit(prompt);
    }

    /** A round of the loop as the session sees it: playing exchange `i`
        extends the session by that exchange. */
    method PlayRound(render: seq<Item> -> string, exchanges: seq<Exchange>, i: nat,
                     ghost loaded: Entries, ghost start: int, ghost ctx0: seq<Item>)
      returns (stop: bool)
      requires i < |exchanges| && Played(loaded, start, ctx0, render, exchanges, i) && Mirrors(ctx0, loaded)
      modifies this`questions, this`historyIndex, this`entries, this`context, this`disk, this`responseFile
      ensures Played(loaded, start, ctx0, render, exchanges, i + 1)
      ensures context == old(context) + [TurnItem(IntKey(historyIndex), entries[|old(entries)|].1)]
      ensures questions == Clamp(old(questions))
      ensures disk == old(disk)[chatTitle := Json(Current())]
      ensures responseFile == ProcessResponse(exchanges[i].reply)
      ensures stop <==> |entries| == questions + startIndex
    {
      ghost var before, ctx := entries, context;
      stop := ChatTurn(render, exchanges[i]);
      ExtendRound(before, entries, ctx, loaded, start, ctx0, render, contextWindow, exchanges, i);
      assert context[..2] == ctx[..2];
    }

    /** The `while True` loop of `start_chat`: play the exchanges one round
        each until a round says stop or the input runs out. The session stops
        after exactly `Budget` rounds when there are that many, and every
        round has stored its turn under the next index. */
    method RunSession(render: seq<Item> -> string, exchanges: seq<Exchange>)
      returns (outcome: ChatEnd, taken: nat)
      requires Valid()
      modifies this`questions, this`historyIndex, this`entries, this`context, this`disk, this`responseFile
      ensures Valid()
      ensures var budget := Budget(|old(entries)|, old(questions), startIndex);
        && (outcome == SessionExit <==> 1 <= budget <= |exchanges|)
        && taken == (if outcome == SessionExit then budget else |exchanges|)
      ensures historyIndex == old(historyIndex) + taken
      ensures Session(entries, old(entries), old(historyIndex), exchanges, taken)
      ensures taken == 0 ==> disk == old(disk) && questions == old(questions)
      ensures taken > 0 ==> disk == old(disk)[chatTitle := Json(Current())]
      ensures taken > 0 ==> questions == Clamp(old(questions))
      ensures taken > 0 ==> responseFile == ProcessResponse(exchanges[taken - 1].reply)
      ensures taken == 0 ==> responseFile == old(responseFile)
      ensures context == old(context) + Items(entries[|old(entries)|..])
      ensures Prompted(entries, old(entries), old(context), render, contextWindow, exchanges, taken)
    {
      ghost var budget := Budget(|entries|, questions, startIndex);
      ghost var es0, q0, index0, disk0, ctx0, rf0 := entries, questions, historyIndex, disk, context, responseFile;
      var i := 0;
      outcome := InputClosed;
      while outcome == InputClosed && i < |exchanges|
        invariant i <= |exchanges|
        invariant Played(es0, index0, ctx0, render, exchanges, i)
        invariant outcome == InputClosed ==> !(1 <= budget <= i)
        invariant outcome == SessionExit ==> 1 <= i == budget
        invariant i == 0 ==> disk == disk0 && questions == q0
        invariant i > 0 ==> disk == disk0[chatTitle := Json(Current())]
        invariant i > 0 ==> questions == Clamp(q0)
        invariant i > 0 ==> responseFile == ProcessResponse(exchanges[i - 1].reply)
        invariant i == 0 ==> responseFile == rf0
      {
        var stop := PlayRound(render, exchanges, i, es0, index0, ctx0);
        i := i + 1;
        if stop {
          outcome := SessionExit;
        }
      }
      taken := i;
      MirroredContext(context, entries, ctx0, es0);
    }

    /** `start_chat`: take the chat title, load its history, note the index
        it starts from, and run the session. */
    method StartChat(chatTitle: string, render: seq<Item> -> string, exchanges: seq<Exchange>)
      returns (outcome: ChatEnd, taken: nat)
      modifies this
      ensures Valid() && this.chatTitle == chatTitle
      ensures title == LoadRecord(old(disk), chatTitle).title
      ensures startIndex == LoadRecord(old(disk), chatTitle).index
      ensures chatTitle !in old(disk) || old(disk)[chatTitle] == EmptyFile ==>
        && title == chatTitle
        && (outcome == SessionExit <==> Clamp(old(questions)) <= |exchanges|)
        && (outcome == SessionExit ==> taken == Clamp(old(questions)))
      ensures var budget := Budget(|LoadRecord(old(disk), chatTitle).entries|, old(questions), startIndex);
        && (outcome == SessionExit <==> 1 <= budget <= |exchanges|)
        && taken == (if outcome == SessionExit then budget else |exchanges|)
      ensures historyIndex == startIndex + taken
      ensures Session(entries, LoadRecord(old(disk), chatTitle).entries, startIndex, exchanges, taken)
      ensures taken == 0 ==> disk == old(disk) && questions == old(questions)
      ensures taken > 0 ==> disk == old(disk)[chatTitle := Json(Current())]
      ensures taken > 0 ==> questions == Clamp(old(questions))
      ensures taken > 0 ==> responseFile == ProcessResponse(exchanges[taken - 1].reply)
      ensures taken == 0 ==> responseFile == old(responseFile)
      ensures context == ContextOf(LoadRecord(old(disk), chatTitle)) + Items(entries[|LoadRecord(old(disk), chatTitle).entries|..])
      ensures Prompted(entries, LoadRecord(old(disk), chatTitle).entries, ContextOf(LoadRecord(old(disk), chatTitle)),
                       render, contextWindow, exchanges, taken)
      ensures Numbered(LoadRecord(old(disk), chatTitle)) ==>
        && Numbered(Current())
        && (outcome == SessionExit <==> Clamp(old(questions)) <= |exchanges|)
        && (outcome == SessionExit ==> taken == Clamp(old(questions)))
    {
      this.chatTitle := chatTitle;
      var loaded := LoadHistory();
      startIndex := historyIndex;
      assert disk == old(disk) && questions == old(questions) && responseFile == old(responseFile);
      ghost var es0, ctx0 := entries, context;
      assert loaded == LoadRecord(old(disk), chatTitle) && es0 == loaded.entries && ctx0 == ContextOf(loaded);
      outcome, taken := RunSession(render, exchanges);
      assert Prompted(entries, es0, ctx0, render, contextWindow, exchanges, taken);
      if Numbered(loaded) {
        SessionNumbered(title, entries, loaded.entries, startIndex, exchanges, taken);
      }
    }
  }
}
