/** The word-of-the-day endpoints: create, read, partial update and delete of words,
    with the word text kept unique by the handlers themselves. */
module WordRoutes {
  import opened Wrappers
  import opened Clock
  import opened Seqs
  import opened Models

  /** The create request, with the schema defaults already applied to omitted fields. */
  datatype WordCreate = WordCreate(word: string, definition: string, extraJson: Option<string>, active: bool)

  /** `query(Word).filter(Word.id == id).first()`. */
  function FindWord(rows: seq<Word>, id: int): (k: int)
    ensures -1 <= k < |rows|
    ensures k < 0 <==> forall i :: 0 <= i < |rows| ==> rows[i].id != id
    ensures k >= 0 ==> rows[k].id == id
  {
    IndexOf(rows, (w: Word) => w.id == id)
  }

  /** `query(Word).filter(Word.word == text).first()`. */
  function FindText(rows: seq<Word>, text: string): (k: int)
    ensures -1 <= k < |rows|
    ensures k < 0 <==> forall i :: 0 <= i < |rows| ==> rows[i].word != text
    ensures k >= 0 ==> rows[k].word == text
  {
    IndexOf(rows, (w: Word) => w.word == text)
  }

  // ---------- Create ----------

  function NewWord(id: int, p: WordCreate, now: Timestamp): Word {
    Word(id, p.word, p.definition, p.extraJson, p.active, now, now)
  }

  /** `POST /words`: a text already present is refused with 400; otherwise the row is appended. */
  method CreateWord(table: WordTable, p: WordCreate, now: Timestamp) returns (res: Result<Word>)
    requires table.Valid()
    modifies table
    ensures table.Valid()
    ensures FindText(old(table.rows), p.word) >= 0 ==>
              res == Err(BadRequest("Word already exists")) && table.rows == old(table.rows)
    ensures FindText(old(table.rows), p.word) < 0 ==>
              var row := NewWord(NextWordId(old(table.rows)), p, now);
              table.rows == old(table.rows) + [row] && res == Ok(row)
  {
    if FindText(table.rows, p.word) >= 0 {
      return Err(BadRequest("Word already exists"));
    }
    var row := NewWord(NextWordId(table.rows), p, now);
    table.rows := table.rows + [row];
    res := Ok(row);
  }

  // ---------- Read ----------

  /** `GET /words/{id}`. */
  method GetWord(table: WordTable, id: int) returns (res: Result<Word>)
    ensures FindWord(table.rows, id) < 0 ==> res == Err(NotFound("Word not found"))
    ensures FindWord(table.rows, id) >= 0 ==> res == Ok(table.rows[FindWord(table.rows, id)])
  {
    var k := FindWord(table.rows, id);
    if k < 0 {
      return Err(NotFound("Word not found"));
    }
    res := Ok(table.rows[k]);
  }

  /** `GET /words`: every word, by ascending id. */
  method ListWords(table: WordTable) returns (res: seq<Word>)
    requires table.Valid()
    ensures res == table.rows
    ensures forall i, j :: 0 <= i < j < |res| ==> res[i].id < res[j].id
  {
    res := table.rows;
  }

  // ---------- Update ----------

  /** A partial update: `None` leaves a field alone; for the nullable `extra_json`
      `Some(None)` stores null. `active` is nullable too, but only a value can be given
      for it. */
  datatype WordPatch = WordPatch(
    word: Option<string>,
    definition: Option<string>,
    extraJson: Option<Option<string>>,
    active: Option<bool>)

  /** The field assignments of `update_word`; `updated_at` is always bumped. */
  function PatchWord(w: Word, p: WordPatch, now: Timestamp): Word {
    w.(word := p.word.GetOr(w.word),
       definition := p.definition.GetOr(w.definition),
       extraJson := p.extraJson.GetOr(w.extraJson),
       active := p.active.GetOr(w.active),
       updatedAt := now)
  }

  /** Only the fields present in the patch change; the key and creation time never do. */
  lemma PatchChangesOnlyGiven(w: Word, p: WordPatch, now: Timestamp)
    ensures var u := PatchWord(w, p, now);
      && u.id == w.id && u.createdAt == w.createdAt && u.updatedAt == now
      && (p.word.None? ==> u.word == w.word) && (p.word.Some? ==> u.word == p.word.value)
      && (p.definition.None? ==> u.definition == w.definition)
      && (p.definition.Some? ==> u.definition == p.definition.value)
      && (p.extraJson.None? ==> u.extraJson == w.extraJson)
      && (p.extraJson.Some? ==> u.extraJson == p.extraJson.value)
      && (p.active.None? ==> u.active == w.active) && (p.active.Some? ==> u.active == p.active.value)
  {
  }

  /** The text check of an update: refused only when another word holds the text. */
  predicate TextTaken(rows: seq<Word>, id: int, p: WordPatch) {
    p.word.Some? && FindText(rows, p.word.value) >= 0 && rows[FindText(rows, p.word.value)].id != id
  }

  /** Replacing a row by its patched version keeps the table valid when the text check passed. */
  lemma PatchKeepsValid(rows: seq<Word>, k: int, p: WordPatch, now: Timestamp)
    requires WordKeys(rows) && UniqueWords(rows) && 0 <= k < |rows|
    requires !TextTaken(rows, rows[k].id, p)
    ensures WordKeys(rows[k := PatchWord(rows[k], p, now)]) && UniqueWords(rows[k := PatchWord(rows[k], p, now)])
  {
    if p.word.Some? {
      var e := FindText(rows, p.word.value);
      if e >= 0 {
        assert rows[e].id == rows[k].id;
        assert e == k;
      }
    }
  }

  /** Re-sending a word's own text is never refused. */
  lemma OwnTextAllowed(rows: seq<Word>, k: int, p: WordPatch)
    requires UniqueWords(rows) && 0 <= k < |rows| && p.word == Some(rows[k].word)
    ensures !TextTaken(rows, rows[k].id, p)
  {
    var e := FindText(rows, rows[k].word);
    assert e >= 0;
    assert e == k;
  }

  /** `PATCH /words/{id}`: not found, or refused because another word holds the new
      text (nothing is committed), or the patched row is stored. */
  method UpdateWord(table: WordTable, id: int, p: WordPatch, now: Timestamp) returns (res: Result<Word>)
    requires table.Valid()
    modifies table
    ensures table.Valid()
    ensures var k := FindWord(old(table.rows), id);
      && (k < 0 ==> res == Err(NotFound("Word not found")) && table.rows == old(table.rows))
      && (k >= 0 && TextTaken(old(table.rows), id, p) ==>
            res == Err(BadRequest("Word already exists")) && table.rows == old(table.rows))
      && (k >= 0 && !TextTaken(old(table.rows), id, p) ==>
            var u := PatchWord(old(table.rows)[k], p, now);
            table.rows == old(table.rows)[k := u] && res == Ok(u))
  {
    var k := FindWord(table.rows, id);
    if k < 0 {
      return Err(NotFound("Word not found"));
    }
    if p.word.Some? {
      var e := FindText(table.rows, p.word.value);
      if e >= 0 && table.rows[e].id != id {
        return Err(BadRequest("Word already exists"));
      }
    }
    var u := PatchWord(table.rows[k], p, now);
    PatchKeepsValid(table.rows, k, p, now);
    table.rows := table.rows[k := u];
    res := Ok(u);
  }

  // ---------- Delete ----------

  /** `DELETE /words/{id}`: exactly that row goes. */
  method DeleteWord(table: WordTable, id: int) returns (res: Result<()>)
    requires table.Valid()
    modifies table
    ensures table.Valid()
    ensures var k := FindWord(old(table.rows), id);
      && (k < 0 ==> res == Err(NotFound("Word not found")) && table.rows == old(table.rows))
      && (k >= 0 ==> res == Ok(()) && table.rows == RemoveAt(old(table.rows), k))
  {
    var k := FindWord(table.rows, id);
    if k < 0 {
      return Err(NotFound("Word not found"));
    }
    RemoveKeepsPairs(table.rows, k, (a: Word, b: Word) => a.id < b.id);
    RemoveKeepsPairs(table.rows, k, (a: Word, b: Word) => a.word != b.word);
    table.rows := RemoveAt(table.rows, k);
    res := Ok(());
  }

  /** After a delete no word has that id, and every other word is still there. */
  lemma DeleteExactly(rows: seq<Word>, k: int)
    requires WordKeys(rows) && 0 <= k < |rows|
    ensures FindWord(RemoveAt(rows, k), rows[k].id) < 0
    ensures forall i :: 0 <= i < |rows| && i != k ==> rows[i] in RemoveAt(rows, k)
  {
    var r := RemoveAt(rows, k);
    forall m | 0 <= m < |r|
      ensures r[m].id != rows[k].id
    {
      if m < k {
        assert r[m] == rows[m];
      } else {
        assert r[m] == rows[m + 1];
      }
    }
    forall i | 0 <= i < |rows| && i != k
      ensures rows[i] in r
    {
      if i < k {
        assert r[i] == rows[i];
      } else {
        assert r[i - 1] == rows[i];
      }
    }
  }
}
