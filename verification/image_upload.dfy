/** The `ImageUpload` component's state machine: the drop handler with its
    count and size checks, and the removal of a preview.  Files are reduced
    to a name and a byte size; `URL.createObjectURL(file)` becomes the
    preview `ObjectUrl(file)`, and the `onUpload` promise becomes an
    abstract outcome. */
module ImageUpload {
  import opened Wrappers
  import Seqs

  datatype File = File(name: string, size: int)

  /** A thumbnail: a URL that was given or uploaded, or a local object URL
      made for a dropped file. */
  datatype Preview = Url(url: string) | ObjectUrl(file: File)

  /** The error banner; the message text is left out, only its cause is kept. */
  datatype UploadError = TooManyFiles(maxFiles: int) | TooLarge(maxSize: int) | UploadFailed

  /** The component's props, with `onChange` and `onUpload` reduced to
      whether they were passed. */
  datatype Props = Props(maxFiles: int, maxSize: int, hasOnChange: bool, hasOnUpload: bool)

  const DefaultMaxFiles := 5
  const DefaultMaxSize := 5 * 1024 * 1024

  function WithDefaults(hasOnChange: bool, hasOnUpload: bool): Props {
    Props(DefaultMaxFiles, DefaultMaxSize, hasOnChange, hasOnUpload)
  }

  datatype State = State(files: seq<File>, previews: seq<Preview>, error: Option<UploadError>, isUploading: bool)

  function Urls(value: seq<string>): (r: seq<Preview>)
    ensures |r| == |value| && forall i :: 0 <= i < |value| ==> r[i] == Url(value[i])
  {
    seq(|value|, i requires 0 <= i < |value| => Url(value[i]))
  }

  function ObjectUrls(fs: seq<File>): (r: seq<Preview>)
    ensures |r| == |fs| && forall i :: 0 <= i < |fs| ==> r[i] == ObjectUrl(fs[i])
  {
    seq(|fs|, i requires 0 <= i < |fs| => ObjectUrl(fs[i]))
  }

  /** The state on mount: no files, one preview per URL of `value`. */
  function Init(value: seq<string>): (s: State)
    ensures s.files == [] && s.previews == Urls(value) && s.error.None? && !s.isUploading
  {
    State([], Urls(value), None, false)
  }

  /** The mounted component starts aligned: its previews are the given URLs
      and no dropped file has a preview yet. */
  lemma InitAligned(value: seq<string>)
    ensures Aligned(Init(value), value)
    ensures |Init(value).previews| == |value|
  {
    assert ObjectUrls([]) == [];
  }

  /** What the `onUpload` promise did. */
  datatype UploadOutcome = Uploaded(urls: seq<string>) | UploadThrew

  /** The next state and the argument `onChange` was called with, if it was. */
  datatype Update = Update(state: State, changed: Option<seq<File>>)

  function Oversized(maxSize: int): File -> bool {
    (f: File) => f.size > maxSize
  }

  /** `onDrop`.  The count check (counting the previews already shown) comes
      before the size check; a file exactly `maxSize` bytes long passes.  An
      accepted drop appends the files, reports the whole list to
      `onChange`, and adds previews: the uploaded URLs when `onUpload` is
      given (`upload` is consulted only then), one object URL per file
      otherwise. */
  function OnDrop(props: Props, s: State, accepted: seq<File>, upload: UploadOutcome): (r: Update)
    ensures |accepted| + |s.previews| > props.maxFiles ==>
              r == Update(s.(error := Some(TooManyFiles(props.maxFiles))), None)
    ensures |accepted| + |s.previews| <= props.maxFiles && (exists i :: 0 <= i < |accepted| && accepted[i].size > props.maxSize) ==>
              r == Update(s.(error := Some(TooLarge(props.maxSize))), None)
    ensures r.changed.Some? || r.state.files != s.files ==>
              |accepted| + |s.previews| <= props.maxFiles
              && forall i :: 0 <= i < |accepted| ==> accepted[i].size <= props.maxSize
    ensures |accepted| + |s.previews| <= props.maxFiles && (forall i :: 0 <= i < |accepted| ==> accepted[i].size <= props.maxSize) ==>
              && r.state.files == s.files + accepted
              && r.changed == (if props.hasOnChange then Some(s.files + accepted) else None)
              && !r.state.isUploading
              && |r.state.previews| >= |s.previews| && r.state.previews[..|s.previews|] == s.previews
              && (!props.hasOnUpload ==> r.state.previews == s.previews + ObjectUrls(accepted) && r.state.error.None?)
              && (props.hasOnUpload && upload.Uploaded? ==> r.state.previews == s.previews + Urls(upload.urls) && r.state.error.None?)
              && (props.hasOnUpload && upload.UploadThrew? ==> r.state.previews == s.previews && r.state.error == Some(UploadFailed))
  {
    if |accepted| + |s.previews| > props.maxFiles then
      Update(s.(error := Some(TooManyFiles(props.maxFiles))), None)
    else if |Seqs.Filter(accepted, Oversized(props.maxSize))| > 0 then
      var f := Seqs.Filter(accepted, Oversized(props.maxSize))[0];
      assert f in accepted;
      Update(s.(error := Some(TooLarge(props.maxSize))), None)
    else
      assert forall i :: 0 <= i < |accepted| ==> accepted[i].size <= props.maxSize by {
        forall i | 0 <= i < |accepted| ensures accepted[i].size <= props.maxSize {
          assert accepted[i] in accepted;
        }
      }
      var files := s.files + accepted;
      var changed := if props.hasOnChange then Some(files) else None;
      if props.hasOnUpload then
        match upload
        case Uploaded(urls) => Update(State(files, s.previews + Urls(urls), None, false), changed)
        case UploadThrew => Update(State(files, s.previews, Some(UploadFailed), false), changed)
      else Update(State(files, s.previews + ObjectUrls(accepted), None, false), changed)
  }

  /** `removeImage(index)` as written: the preview at `index` goes, and so
      does the FILE at `index` when there is one, which is reported to
      `onChange`. */
  function RemoveImage(props: Props, s: State, index: nat): (r: Update)
    ensures r.state.previews == Seqs.RemoveAt(s.previews, index)
    ensures r.state.error == s.error && r.state.isUploading == s.isUploading
    ensures index < |s.files| ==> r.state.files == Seqs.RemoveAt(s.files, index)
                                  && r.changed == (if props.hasOnChange then Some(r.state.files) else None)
    ensures index >= |s.files| ==> r.state.files == s.files && r.changed.None?
  {
    var previews := Seqs.RemoveAt(s.previews, index);
    if index < |s.files| then
      var files := Seqs.RemoveAt(s.files, index);
      Update(s.(previews := previews, files := files), if props.hasOnChange then Some(files) else None)
    else Update(s.(previews := previews), None)
  }

  /** Without `onUpload`, the previews are always the given URLs followed by
      one object URL per file, in file order. */
  predicate Aligned(s: State, value: seq<string>) {
    s.previews == Urls(value) + ObjectUrls(s.files)
  }

  lemma ObjectUrlsAppend(a: seq<File>, b: seq<File>)
    ensures ObjectUrls(a + b) == ObjectUrls(a) + ObjectUrls(b)
  {
  }

  /** Local-preview drops keep the previews aligned with the files, and
      never show more previews than `maxFiles` when there were not already
      more. */
  lemma {:induction false} OnDropKeepsAlignment(props: Props, s: State, value: seq<string>, accepted: seq<File>, upload: UploadOutcome)
    requires !props.hasOnUpload && Aligned(s, value)
    ensures Aligned(OnDrop(props, s, accepted, upload).state, value)
    ensures |s.previews| <= props.maxFiles ==> |OnDrop(props, s, accepted, upload).state.previews| <= props.maxFiles
  {
    ObjectUrlsAppend(s.files, accepted);
  }

  lemma {:induction false} RemoveAtObjectUrls(fs: seq<File>, k: nat)
    requires k < |fs|
    ensures Seqs.RemoveAt(ObjectUrls(fs), k) == ObjectUrls(Seqs.RemoveAt(fs, k))
  {
  }

  /** With no initial `value`, preview `i` is the preview of file `i`, so
      the code as written keeps them aligned. */
  lemma {:induction false} RemoveImageAlignedWithoutValue(props: Props, s: State, index: nat)
    requires Aligned(s, []) && index < |s.previews|
    ensures Aligned(RemoveImage(props, s, index).state, [])
  {
    assert Urls([]) + ObjectUrls(s.files) == ObjectUrls(s.files);
    RemoveAtObjectUrls(s.files, index);
  }

  /** With an initial `value`, removing a given image's preview also removes
      the first dropped file, whose preview stays on screen. */
  lemma RemoveImageMisaligned()
    ensures var f := File("foto.jpg", 100);
            var s := State([f], [Url("a.jpg"), ObjectUrl(f)], None, false);
            var r := RemoveImage(Props(5, 100, true, false), s, 0);
            && Aligned(s, ["a.jpg"])
            && r.state.previews == [ObjectUrl(f)]
            && r.state.files == []
            && r.changed == Some([])
            && !Aligned(r.state, [])
  {
    var f := File("foto.jpg", 100);
    var s := State([f], [Url("a.jpg"), ObjectUrl(f)], None, false);
    assert Urls(["a.jpg"]) + ObjectUrls([f]) == [Url("a.jpg"), ObjectUrl(f)];
    var r := RemoveImage(Props(5, 100, true, false), s, 0);
    assert r.state.previews == [ObjectUrl(f)];
    assert Urls([]) + ObjectUrls([]) == [];
  }

  /** The removal as intended: the previews not backed by a dropped file come
      first, so preview `index` belongs to file `index - offset` when it
      belongs to a file at all. */
  function RemoveImageFixed(props: Props, s: State, index: nat): (r: Update)
    ensures r.state.previews == Seqs.RemoveAt(s.previews, index)
    ensures r.state.error == s.error && r.state.isUploading == s.isUploading
  {
    var previews := Seqs.RemoveAt(s.previews, index);
    var offset := |s.previews| - |s.files|;
    if offset <= index < |s.previews| && index - offset < |s.files| then
      var files := Seqs.RemoveAt(s.files, index - offset);
      Update(s.(previews := previews, files := files), if props.hasOnChange then Some(files) else None)
    else Update(s.(previews := previews), None)
  }

  /** The corrected removal keeps previews and files aligned: removing one of
      the given URLs leaves the files alone, removing a dropped file's
      preview removes exactly that file and reports it. */
  lemma {:induction false} RemoveImageFixedKeepsAlignment(props: Props, s: State, value: seq<string>, index: nat)
    requires Aligned(s, value) && index < |s.previews|
    ensures index < |value| ==> Aligned(RemoveImageFixed(props, s, index).state, Seqs.RemoveAt(value, index))
                                && RemoveImageFixed(props, s, index).state.files == s.files
                                && RemoveImageFixed(props, s, index).changed.None?
    ensures index >= |value| ==> Aligned(RemoveImageFixed(props, s, index).state, value)
                                 && RemoveImageFixed(props, s, index).state.files == Seqs.RemoveAt(s.files, index - |value|)
                                 && RemoveImageFixed(props, s, index).changed
                                    == (if props.hasOnChange then Some(Seqs.RemoveAt(s.files, index - |value|)) else None)
  {
    var r := RemoveImageFixed(props, s, index);
    if index < |value| {
      assert r.state.files == s.files;
      assert r.state.previews == Urls(Seqs.RemoveAt(value, index)) + ObjectUrls(s.files);
    } else {
      var k := index - |value|;
      RemoveAtObjectUrls(s.files, k);
      assert r.state.previews == Urls(value) + ObjectUrls(Seqs.RemoveAt(s.files, k));
    }
  }
  /** With the default props (five files, five mebibytes): on a fresh
      component a file of exactly 5 MiB is accepted and gets an object-URL
      preview, one byte more is refused as too large, and a sixth image is
      refused as one too many. */
  lemma {:induction false} DefaultLimits(hasOnChange: bool, upload: UploadOutcome)
    ensures var props := WithDefaults(hasOnChange, false);
            var ok := File("a.jpg", 5 * 1024 * 1024);
            var r := OnDrop(props, Init([]), [ok], upload);
            && r.state.files == [ok]
            && r.state.previews == [ObjectUrl(ok)]
            && r.state.error.None?
            && Aligned(r.state, [])
    ensures var props := WithDefaults(hasOnChange, false);
            OnDrop(props, Init([]), [File("b.jpg", 5 * 1024 * 1024 + 1)], upload)
              == Update(Init([]).(error := Some(TooLarge(5 * 1024 * 1024))), None)
    ensures var props := WithDefaults(hasOnChange, false);
            var s := Init(["1", "2", "3", "4", "5"]);
            OnDrop(props, s, [File("c.jpg", 1)], upload) == Update(s.(error := Some(TooManyFiles(5))), None)
  {
    var props := WithDefaults(hasOnChange, false);
    var ok := File("a.jpg", 5 * 1024 * 1024);
    InitAligned([]);
    OnDropKeepsAlignment(props, Init([]), [], [ok], upload);
    var big := File("b.jpg", 5 * 1024 * 1024 + 1);
    assert [big][0].size > props.maxSize;
  }
}
