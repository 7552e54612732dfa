/**
  The conversation history of the chat client as a value: the history
  dictionary (two bookkeeping keys `title` and `history_index` next to one
  entry per turn), what reading it back from disk does to it, the context
  list derived from it, the slice of that list placed in each prompt, the
  prompt itself, and the fallback for an empty model response.
 */
module History {
  import opened Wrappers

  /** One exchange: the prompt sent to the model and the text it gave back. */
  datatype Turn = Turn(prompt: string, response: string)

  /** The key of a turn entry. The client inserts integers (`IntKey`); after the
      record has gone through the JSON file every key is a string, and
      `StrKey(n)` stands for the decimal string of `n`. */
  datatype Key = IntKey(n: int) | StrKey(n: int)

  /** The turn entries of the history dictionary, in insertion order. */
  type Entries = seq<(Key, Turn)>

  /** The whole history dictionary: `title`, `history_index` and the entries. */
  datatype Record = Record(title: string, index: int, entries: Entries)

  /** One element of the context list: a `(key, value)` pair of the dictionary. */
  datatype Item = TitleItem(title: string) | IndexItem(index: int) | TurnItem(key: Key, turn: Turn)

  /** What the history file holds: nothing (size 0) or a saved record. */
  datatype StoredFile = EmptyFile | Json(record: Record)

  // ---------------------------------------------------------------------------
  // The entries as a dictionary

  /** Dictionary lookup. */
  function Lookup(es: Entries, k: Key): (r: Option<Turn>)
    ensures r.None? <==> forall i :: 0 <= i < |es| ==> es[i].0 != k
    ensures r.Some? ==> (k, r.value) in es
  {
    if es == [] then None
    else if es[0].0 == k then Some(es[0].1)
    else Lookup(es[1..], k)
  }

  /** No key occurs twice, as in any dictionary. */
  ghost predicate DistinctKeys(es: Entries) {
    forall i, j :: 0 <= i < j < |es| ==> es[i].0 != es[j].0
  }

  /** The position of the first pair with key `k`. */
  function Position(es: Entries, k: Key): (p: nat)
    requires Lookup(es, k).Some?
    ensures p < |es| && es[p].0 == k
    ensures forall j :: 0 <= j < p ==> es[j].0 != k
  {
    if es[0].0 == k then 0 else 1 + Position(es[1..], k)
  }

  /** Dictionary item assignment `d[k] = t`: an existing key keeps its
      position and gets the new value, a new key goes to the end. */
  function Put(es: Entries, k: Key, t: Turn): (r: Entries)
    ensures Lookup(es, k).None? ==> r == es + [(k, t)]
    ensures Lookup(es, k).Some? ==> r == es[Position(es, k) := (k, t)]
  {
    if es == [] then [(k, t)]
    else if es[0].0 == k then [(k, t)] + es[1..]
    else [es[0]] + Put(es[1..], k, t)
  }

  /** After assignment the key holds the new value. */
  lemma {:induction false} PutLooksUp(es: Entries, k: Key, t: Turn)
    ensures Lookup(Put(es, k, t), k) == Some(t)
  {
    if es != [] && es[0].0 != k {
      PutLooksUp(es[1..], k, t);
    }
  }

  /** Assignment changes the value under `k` and under no other key. */
  lemma {:induction false} PutOthers(es: Entries, k: Key, t: Turn, k': Key)
    requires k' != k
    ensures Lookup(Put(es, k, t), k') == Lookup(es, k')
  {
    if es != [] && es[0].0 != k {
      PutOthers(es[1..], k, t, k');
    }
  }

  /** After assignment every pair is the new one or an old one. */
  lemma {:induction false} PutElements(es: Entries, k: Key, t: Turn)
    ensures forall i :: 0 <= i < |Put(es, k, t)| ==> Put(es, k, t)[i] == (k, t) || Put(es, k, t)[i] in es
  {
    if es != [] && es[0].0 != k {
      PutElements(es[1..], k, t);
      var r := Put(es, k, t);
      forall i | 1 <= i < |r| ensures r[i] == (k, t) || r[i] in es {
        assert r[i] == Put(es[1..], k, t)[i - 1];
      }
    }
  }

  /** Assignment keeps a dictionary free of repeated keys. */
  lemma {:induction false} PutKeepsDistinct(es: Entries, k: Key, t: Turn)
    requires DistinctKeys(es)
    ensures DistinctKeys(Put(es, k, t))
  {
    if es != [] && es[0].0 != k {
      PutKeepsDistinct(es[1..], k, t);
      var r := Put(es, k, t);
      forall j | 0 < j < |r| ensures r[0].0 != r[j].0 {
        assert r[j] == Put(es[1..], k, t)[j - 1];
        PutElements(es[1..], k, t);
      }
    }
  }

  // ---------------------------------------------------------------------------
  // The record after a trip through the JSON file

  /** The dictionary `json.load` builds from a saved one: each key becomes its
      string, and pairs are inserted one by one, so two keys that print alike
      collapse into one. */
  function Reload(es: Entries): (r: Entries)
    ensures DistinctKeys(r)
    ensures forall i :: 0 <= i < |r| ==> r[i].0.StrKey?
    ensures |r| <= |es|
    decreases |es|
  {
    if es == [] then []
    else
      var init, last := es[..|es| - 1], es[|es| - 1];
      var r := Reload(init);
      PutKeepsDistinct(r, StrKey(last.0.n), last.1);
      PutElements(r, StrKey(last.0.n), last.1);
      Put(r, StrKey(last.0.n), last.1)
  }

  /** The keys of `es` print as pairwise different strings. */
  ghost predicate NumbersDistinct(es: Entries) {
    forall i, j :: 0 <= i < j < |es| ==> es[i].0.n != es[j].0.n
  }

  /** `es` with each key replaced by its string form. */
  function Stringified(es: Entries): (r: Entries) {
    seq(|es|, i requires 0 <= i < |es| => (StrKey(es[i].0.n), es[i].1))
  }

  /** When no two keys print alike, reading back keeps every entry, in order,
      and only turns its key into a string. */
  lemma {:induction false} ReloadStringifies(es: Entries)
    requires NumbersDistinct(es)
    ensures Reload(es) == Stringified(es)
  {
    if es != [] {
      var init, last := es[..|es| - 1], es[|es| - 1];
      var k := StrKey(last.0.n);
      assert NumbersDistinct(init) by {
        forall i, j | 0 <= i < j < |init| ensures init[i].0.n != init[j].0.n {
          assert init[i] == es[i] && init[j] == es[j];
        }
      }
      ReloadStringifies(init);
      var s := Stringified(init);
      forall i | 0 <= i < |s| ensures s[i].0 != k {
        assert s[i].0.n == es[i].0.n;
      }
      assert Lookup(s, k).None?;
      assert Reload(es) == Put(s, k, last.1) == s + [(k, last.1)];
      var t := Stringified(es);
      assert |t| == |s| + 1;
      forall i | 0 <= i < |t| ensures t[i] == (s + [(k, last.1)])[i] {
        if i < |s| { assert t[i] == (StrKey(es[i].0.n), es[i].1) && init[i] == es[i]; }
      }
    }
  }

  /** A record read back and saved again reads back the same. */
  lemma ReloadIdempotent(es: Entries)
    ensures Reload(Reload(es)) == Reload(es)
  {
    var r := Reload(es);
    assert NumbersDistinct(r) by {
      forall i, j | 0 <= i < j < |r| ensures r[i].0.n != r[j].0.n {
        assert r[i].0 != r[j].0 && r[i].0.StrKey? && r[j].0.StrKey?;
      }
    }
    ReloadStringifies(r);
  }

  /** The history as `json.load` gives it back after `json.dump`. */
  function Reloaded(rec: Record): Record {
    Record(rec.title, rec.index, Reload(rec.entries))
  }

  /** Saving then loading keeps the title, the index and every turn with its
      number, but is not the identity once an integer key has been stored. */
  lemma SaveLoadRoundTrip(rec: Record)
    requires NumbersDistinct(rec.entries)
    ensures Reloaded(rec).title == rec.title && Reloaded(rec).index == rec.index
    ensures |Reloaded(rec).entries| == |rec.entries|
    ensures forall i :: 0 <= i < |rec.entries| ==>
      Reloaded(rec).entries[i] == (StrKey(rec.entries[i].0.n), rec.entries[i].1)
    ensures (exists i :: 0 <= i < |rec.entries| && rec.entries[i].0.IntKey?) ==> Reloaded(rec) != rec
  {
    ReloadStringifies(rec.entries);
  }

  /** `load_history`'s choice of history: a fresh one when the file is missing
      or empty, otherwise the saved one as JSON gives it back. */
  function LoadRecord(disk: map<string, StoredFile>, title: string): (r: Record)
    ensures (title !in disk || disk[title] == EmptyFile) ==> r == Record(title, 0, [])
    ensures title in disk && disk[title].Json? ==>
      r.title == disk[title].record.title && r.index == disk[title].record.index
    ensures title in disk && disk[title].Json? ==> r == Reloaded(disk[title].record)
    ensures DistinctKeys(r.entries)
    ensures forall i :: 0 <= i < |r.entries| ==> r.entries[i].0.StrKey?
  {
    if title in disk && disk[title].Json? then Reloaded(disk[title].record)
    else Record(title, 0, [])
  }

  /** The turns are numbered 1, 2, ... in order, as many as the index says:
      the shape of every history this client writes, whatever the kind of
      its keys. */
  ghost predicate Numbered(rec: Record) {
    && |rec.entries| == rec.index
    && forall i :: 0 <= i < |rec.entries| ==> rec.entries[i].0.n == i + 1
  }

  /** A missing or empty file, or one holding a numbered history, loads as
      a numbered history. */
  lemma LoadNumbered(disk: map<string, StoredFile>, title: string)
    requires title in disk && disk[title].Json? ==> Numbered(disk[title].record)
    ensures Numbered(LoadRecord(disk, title))
  {
    if title in disk && disk[title].Json? {
      var es := disk[title].record.entries;
      assert NumbersDistinct(es);
      ReloadStringifies(es);
    }
  }

  /** A numbered history saved under a title loads back numbered, so the
      property passes from one session to the next. */
  lemma SavedNumbered(disk: map<string, StoredFile>, title: string, rec: Record)
    requires Numbered(rec)
    ensures Numbered(LoadRecord(disk[title := Json(rec)], title))
  {
    LoadNumbered(disk[title := Json(rec)], title);
  }

  /** Loading right after a save gives back the saved title and index and
      every turn, in order, under the string form of its key. */
  lemma {:induction false} LoadAfterSave(disk: map<string, StoredFile>, title: string, rec: Record)
    requires NumbersDistinct(rec.entries)
    ensures LoadRecord(disk[title := Json(rec)], title) ==
      Record(rec.title, rec.index, Stringified(rec.entries))
  {
    ReloadStringifies(rec.entries);
  }

  /** The entries as context items. */
  function Items(es: Entries): (r: seq<Item>)
    ensures |r| == |es|
  {
    seq(|es|, i requires 0 <= i < |es| => TurnItem(es[i].0, es[i].1))
  }

  /** `list(history.items())`: the two bookkeeping pairs, then every turn. */
  function ContextOf(rec: Record): (r: seq<Item>)
    ensures |r| == |rec.entries| + 2
    ensures r[0] == TitleItem(rec.title) && r[1] == IndexItem(rec.index)
    ensures forall i :: 0 <= i < |rec.entries| ==> r[i + 2] == TurnItem(rec.entries[i].0, rec.entries[i].1)
  {
    [TitleItem(rec.title), IndexItem(rec.index)] + Items(rec.entries)
  }

  // ---------------------------------------------------------------------------
  // Turn limit

  /** The question limit after `update_history` has enforced its minimum. */
  function Clamp(questions: int): (q: int)
    ensures q >= 1
    ensures questions >= 1 ==> q == questions
    ensures questions < 1 ==> q == 1
  {
    if questions < 1 then 1 else questions
  }

  // ---------------------------------------------------------------------------
  // The context placed in the next prompt

  /** Python's `s[a:]` for an integer `a`. */
  function SliceFrom<T>(s: seq<T>, a: int): seq<T> {
    var start := if a < 0 then (if |s| + a < 0 then 0 else |s| + a)
                 else (if a > |s| then |s| else a);
    s[start..]
  }

  function Min(a: int, b: int): int { if a < b then a else b }

  /** `context[-context_window:]`: the newest `w` items, or all when there
      are fewer; `w == 0` gives the whole list, since `-0 == 0`; a negative
      `w` drops the first `-w` items. */
  function Window<T>(ctx: seq<T>, w: int): (r: seq<T>)
    ensures w > 0 ==> |r| == Min(w, |ctx|) && r == ctx[|ctx| - |r|..]
    ensures w == 0 ==> r == ctx
    ensures w < 0 ==> r == ctx[Min(-w, |ctx|)..]
  {
    SliceFrom(ctx, -w)
  }

  /** How the window moves when a turn is appended to the context: it gains
      the new item at its end and loses its oldest item once it is full. */
  lemma SlidingWindow<T>(ctx: seq<T>, x: T, w: int)
    requires w > 0
    ensures Window(ctx + [x], w) ==
      (if |ctx| < w then Window(ctx, w) else Window(ctx, w)[1..]) + [x]
  {
    var c := ctx + [x];
    if |ctx| < w {
      assert Window(ctx, w) == ctx;
      assert Window(c, w) == c;
    } else {
      assert Window(c, w) == c[|c| - w..];
      assert Window(ctx, w)[1..] == ctx[|ctx| - w + 1..];
      assert c[|c| - w..] == ctx[|ctx| - w + 1..] + [x];
    }
  }

  // ---------------------------------------------------------------------------
  // The prompt and the exit test

  const Lead: string := "chat history: "

  /** The fixed instructions between the rendered context and the user's text. */
  const Instruction: string :=
    "\nInstruction: \n"
    + "    1. Always check the 'chat history' for context only.\n"
    + "    2. Return response for current prompt only.\n"
    + "    3. your knowledge base is the basis for your response.  \n"
    + "    4. Do not repeat the chat history in your response.\n"
    + "    prompt: "

  /** A prompt built for the user's `text`: it starts with the lead and ends
      with the instructions and the text. */
  ghost predicate IsAugmented(p: string, text: string) {
    && |p| >= |Lead| + |Instruction| + |text|
    && p[..|Lead|] == Lead
    && p[|p| - |Instruction| - |text|..] == Instruction + text
  }

  /** The prompt for one turn, `shown` being the rendered context slice. */
  function BuildPrompt(shown: string, text: string): (p: string)
    ensures IsAugmented(p, text)
    ensures |p| == |Lead| + |shown| + |Instruction| + |text|
  {
    assert (Lead + shown + Instruction + text)[..|Lead|] == Lead;
    Lead + shown + Instruction + text
  }

  function LowerChar(c: char): char {
    if 'A' <= c <= 'Z' then (c as int - 'A' as int + 'a' as int) as char else c
  }

  /** `str.lower()` on ASCII letters. */
  function Lower(s: string): (r: string)
    ensures |r| == |s|
    ensures forall i :: 0 <= i < |s| ==> r[i] == LowerChar(s[i])
  {
    if s == [] then [] else [LowerChar(s[0])] + Lower(s[1..])
  }

  /** The loop's test `prompt.lower() == "exit"`. */
  predicate PromptSaysExit(prompt: string)
    ensures PromptSaysExit(prompt) ==> |prompt| == 4
  {
    Lower(prompt) == "exit"
  }

  /** The test is made on the built prompt, so it never holds, whatever the
      user typed, "exit" included. */
  lemma AugmentedNeverExits(p: string, text: string)
    requires IsAugmented(p, text)
    ensures !PromptSaysExit(p)
  {
    assert |Lower(p)| > 4;
  }

  // ---------------------------------------------------------------------------
  // The model's response

  const NoResponse: string := "No response received."

  /** `process_response`: the text of the response, or the fixed fallback
      when the model gave nothing back. */
  function ProcessResponse(reply: Option<string>): (text: string)
    ensures reply.None? ==> text == NoResponse
    ensures reply.Some? ==> text == reply.value
  {
    match reply
    case None => NoResponse
    case Some(t) => t
  }
}
