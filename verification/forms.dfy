/**
 * Multipart form data as the handlers build it: an ordered list of entries,
 * each a key with a text or a file value, appended one `append` call at a time.
 */
module Forms {
  /** A file the user picked; only its name is observable here. */
  datatype FileRef = FileRef(name: string)

  datatype FormValue = Text(s: string) | Blob(file: FileRef)

  datatype FormEntry = Entry(key: string, value: FormValue)

  type FormData = seq<FormEntry>

  /** The entries `files.forEach(f => form.append(key, f))` adds. */
  function FileEntries(key: string, files: seq<FileRef>): (r: FormData)
    ensures |r| == |files|
    ensures forall i :: 0 <= i < |r| ==> r[i] == Entry(key, Blob(files[i]))
  {
    seq(|files|, i requires 0 <= i < |files| => Entry(key, Blob(files[i])))
  }

  /** The entries `texts.forEach(t => form.append(key, t))` adds. */
  function TextEntries(key: string, texts: seq<string>): (r: FormData)
    ensures |r| == |texts|
    ensures forall i :: 0 <= i < |r| ==> r[i] == Entry(key, Text(texts[i]))
  {
    seq(|texts|, i requires 0 <= i < |texts| => Entry(key, Text(texts[i])))
  }

  /** The file values of `files`, in order. */
  function Blobs(files: seq<FileRef>): (r: seq<FormValue>)
    ensures |r| == |files| && forall i :: 0 <= i < |r| ==> r[i] == Blob(files[i])
  {
    seq(|files|, i requires 0 <= i < |files| => Blob(files[i]))
  }

  /** `form.getAll(key)`: the values under `key`, in insertion order. */
  function GetAll(form: FormData, key: string): (r: seq<FormValue>)
    ensures |r| <= |form|
    decreases |form|
  {
    if form == [] then []
    else (if form[0].key == key then [form[0].value] else []) + GetAll(form[1..], key)
  }

  /** `form.has(key)`. */
  predicate Has(form: FormData, key: string) {
    exists i :: 0 <= i < |form| && form[i].key == key
  }

  lemma {:induction false} GetAllAppend(a: FormData, b: FormData, key: string)
    ensures GetAll(a + b, key) == GetAll(a, key) + GetAll(b, key)
    decreases |a|
  {
    if a == [] {
      assert a + b == b;
    } else {
      var h: seq<FormValue> := if a[0].key == key then [a[0].value] else [];
      assert (a + b)[0] == a[0];
      assert (a + b)[1..] == a[1..] + b;
      assert GetAll(a + b, key) == h + GetAll(a[1..] + b, key);
      GetAllAppend(a[1..], b, key);
      assert GetAll(a, key) == h + GetAll(a[1..], key);
    }
  }

  lemma {:induction false} GetAllEmpty(form: FormData, key: string)
    ensures GetAll(form, key) == [] <==> !Has(form, key)
    decreases |form|
  {
    if form != [] {
      GetAllEmpty(form[1..], key);
      if Has(form[1..], key) {
        var i :| 0 <= i < |form[1..]| && form[1..][i].key == key;
        assert form[i + 1].key == key;
      }
      if Has(form, key) && form[0].key != key {
        var i :| 0 <= i < |form| && form[i].key == key;
        assert form[1..][i - 1].key == key;
      }
    }
  }

  /** Every file appended under `key` comes back from `getAll(key)`, in order. */
  lemma {:induction false} GetAllFiles(files: seq<FileRef>, key: string)
    ensures GetAll(FileEntries(key, files), key) == Blobs(files)
    decreases |files|
  {
    if files != [] {
      assert FileEntries(key, files)[1..] == FileEntries(key, files[1..]);
      GetAllFiles(files[1..], key);
    }
  }

  /** Every text appended under `key` comes back from `getAll(key)`, in order. */
  lemma {:induction false} GetAllTexts(texts: seq<string>, key: string)
    ensures GetAll(TextEntries(key, texts), key) == seq(|texts|, i requires 0 <= i < |texts| => Text(texts[i]))
    decreases |texts|
  {
    if texts != [] {
      assert TextEntries(key, texts)[1..] == TextEntries(key, texts[1..]);
      GetAllTexts(texts[1..], key);
    }
  }

  /** Entries under `key` are invisible to `getAll` of any other key. */
  lemma {:induction false} GetAllOtherKey(files: seq<FileRef>, texts: seq<string>, key: string, other: string)
    requires key != other
    ensures GetAll(FileEntries(key, files), other) == []
    ensures GetAll(TextEntries(key, texts), other) == []
    decreases |files| + |texts|
  {
    if files != [] {
      assert FileEntries(key, files)[1..] == FileEntries(key, files[1..]);
      GetAllOtherKey(files[1..], texts, key, other);
    }
    if texts != [] {
      assert TextEntries(key, texts)[1..] == TextEntries(key, texts[1..]);
      GetAllOtherKey(files, texts[1..], key, other);
    }
  }

  /** The `forEach` loop that appends every picked file under one key. */
  method AppendFiles(form: FormData, key: string, files: seq<FileRef>) returns (r: FormData)
    ensures r == form + FileEntries(key, files)
  {
    r := form;
    var i := 0;
    while i < |files|
      invariant 0 <= i <= |files|
      invariant r == form + FileEntries(key, files[..i])
    {
      assert FileEntries(key, files[..i + 1]) == FileEntries(key, files[..i]) + [Entry(key, Blob(files[i]))];
      r := r + [Entry(key, Blob(files[i]))];
      i := i + 1;
    }
    assert files[..i] == files;
  }

  /** The `forEach` loop that appends every text under one key. */
  method AppendTexts(form: FormData, key: string, texts: seq<string>) returns (r: FormData)
    ensures r == form + TextEntries(key, texts)
  {
    r := form;
    var i := 0;
    while i < |texts|
      invariant 0 <= i <= |texts|
      invariant r == form + TextEntries(key, texts[..i])
    {
      assert TextEntries(key, texts[..i + 1]) == TextEntries(key, texts[..i]) + [Entry(key, Text(texts[i]))];
      r := r + [Entry(key, Text(texts[i]))];
      i := i + 1;
    }
    assert texts[..i] == texts;
  }
}
