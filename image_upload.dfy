/**
 * The upload component (components/ImageUpload.tsx): the MIME-type gate,
 * the split of the data URL the browser's FileReader produces into payload
 * and media type, the choice of the first file of a drop or selection, and
 * the drag-highlight flag.
 */
module ImageUpload {
  import opened Types
  import opened Strings

  const ImageTypePrefix: string := "image/"

  const NotAnImageAlert: string := "Please upload an image file."

  /**
   * A file as the browser hands it over: its declared type, and what
   * `FileReader.readAsDataURL` leaves in `reader.result` when it ends (an
   * oracle here): the data URL, or None when the read failed and the result
   * is null.
   */
  datatype File = File(mimeType: string, dataUrl: Option<string>)

  /**
   * The two arguments `onImageSelected` receives. Indexing past the end of
   * what `split` returns yields `undefined`, so either may be absent.
   */
  datatype ImageSelection = ImageSelection(base64: Option<string>, mimeType: Option<string>)

  /**
   * What `processFile` does with a file: alert and stop, hand over a
   * selection, or throw in the `onloadend` callback because `split` is
   * called on a null result, so that nothing is handed over.
   */
  datatype Processed = Rejected(alert: string) | Selected(selection: ImageSelection) | ReadThrew

  predicate IsImageType(mimeType: string)
  {
    StartsWith(mimeType, ImageTypePrefix)
  }

  /** `parts[k]` in JavaScript: `undefined` past the end. */
  function At(parts: seq<string>, k: nat): Option<string>
  {
    if k < |parts| then Some(parts[k]) else None
  }

  /**
   * `result.split(',')[1]` and `result.split(';')[0].split(':')[1]`: the
   * payload is the text between the first and the second comma; the media
   * type is the text after the first colon, up to any second colon, of what
   * precedes the first semicolon, so media-type parameters are dropped.
   */
  function ParseDataUrl(url: string): (r: ImageSelection)
    ensures r.base64.Some? <==> ',' in url
    ensures ',' in url ==> r.base64 == Some(TakeUntil(After(url, ','), ','))
    ensures r.mimeType.Some? <==> ':' in TakeUntil(url, ';')
    ensures ':' in TakeUntil(url, ';') ==> r.mimeType == Some(TakeUntil(After(TakeUntil(url, ';'), ':'), ':'))
  {
    var header := SplitChar(url, ';')[0];
    SplitSecond(url, ',');
    SplitHead(url, ';');
    SplitSecond(header, ':');
    ImageSelection(At(SplitChar(url, ','), 1), At(SplitChar(header, ':'), 1))
  }

  /** The second part of a split is the text between the first and the second separator. */
  lemma SplitSecond(s: string, c: char)
    ensures At(SplitChar(s, c), 1).Some? <==> c in s
    ensures c in s ==> At(SplitChar(s, c), 1) == Some(TakeUntil(After(s, c), c))
  {
    SplitTail(s, c);
    if c in s {
      SplitHead(After(s, c), c);
    }
  }

  /** The data URL of a base64 payload with the given media type (section 3 of RFC 2397). */
  function FormatDataUrl(mediaType: string, payload: string): string
  {
    "data:" + mediaType + ";base64," + payload
  }

  /** The text before a first separator is what precedes it, and the text after is what follows it. */
  lemma TakeUntilGlued(a: string, b: string, c: char)
    requires c !in a
    ensures TakeUntil(a + ([c] + b), c) == a
    ensures c in a + ([c] + b) && After(a + ([c] + b), c) == b
  {
    var s := a + ([c] + b);
    TakeUntilBeforeSeparator(a, b, c);
    assert s[|a|] == c;
    assert s[|a| + 1..] == b;
  }

  lemma {:induction false} TakeUntilBeforeSeparator(a: string, b: string, c: char)
    requires c !in a
    ensures TakeUntil(a + ([c] + b), c) == a
  {
    var s := a + ([c] + b);
    if |a| == 0 {
      assert s == [c] + b;
    } else {
      var rest := a[1..] + ([c] + b);
      assert s[0] == a[0] && s[1..] == rest by {
        assert a == [a[0]] + a[1..];
      }
      assert c !in a[1..] && a[0] != c by {
        assert a[0] in a;
      }
      TakeUntilBeforeSeparator(a[1..], b, c);
      calc {
        TakeUntil(s, c);
        [s[0]] + TakeUntil(s[1..], c);
        [a[0]] + a[1..];
        { assert a == [a[0]] + a[1..]; }
        a;
      }
    }
  }

  /**
   * The payload and media type written into a data URL are the ones read
   * back, as long as the media type holds no ';', ':' or ',' and the payload
   * no ','.
   */
  lemma DataUrlRoundTrip(mediaType: string, payload: string)
    requires ';' !in mediaType && ':' !in mediaType && ',' !in mediaType
    requires ',' !in payload
    ensures ParseDataUrl(FormatDataUrl(mediaType, payload)) == ImageSelection(Some(payload), Some(mediaType))
  {
    PayloadOfDataUrl(mediaType, payload);
    MediaTypeOfDataUrl(mediaType, payload);
  }

  lemma PayloadOfDataUrl(mediaType: string, payload: string)
    requires ',' !in mediaType && ',' !in payload
    ensures var url := FormatDataUrl(mediaType, payload);
      ',' in url && TakeUntil(After(url, ','), ',') == payload
  {
    var beforeComma := "data:" + mediaType + ";base64";
    assert ',' !in beforeComma by {
      assert ',' !in "data:" && ',' !in ";base64";
    }
    assert ";base64," == ";base64" + [','];
    assert FormatDataUrl(mediaType, payload) == beforeComma + ([','] + payload);
    TakeUntilGlued(beforeComma, payload, ',');
    assert TakeUntil(payload, ',') == payload;
  }

  lemma MediaTypeOfDataUrl(mediaType: string, payload: string)
    requires ';' !in mediaType && ':' !in mediaType
    ensures var header := TakeUntil(FormatDataUrl(mediaType, payload), ';');
      ':' in header && TakeUntil(After(header, ':'), ':') == mediaType
  {
    HeaderOfDataUrl(mediaType, payload);
    MediaTypeOfHeader(mediaType);
  }

  /** What precedes the first ';' of a data URL is "data:" and the media type. */
  lemma HeaderOfDataUrl(mediaType: string, payload: string)
    requires ';' !in mediaType
    ensures TakeUntil(FormatDataUrl(mediaType, payload), ';') == "data:" + mediaType
  {
    var header := "data:" + mediaType;
    var rest := "base64," + payload;
    assert ';' !in header by {
      assert ';' !in "data:";
    }
    assert FormatDataUrl(mediaType, payload) == header + ([';'] + rest) by {
      assert ";base64," == [';'] + "base64,";
      assert header + ";base64," + payload == header + (";base64," + payload);
      assert ";base64," + payload == [';'] + rest;
    }
    TakeUntilGlued(header, rest, ';');
  }

  /** The media type is what follows the colon of "data:". */
  lemma MediaTypeOfHeader(mediaType: string)
    requires ':' !in mediaType
    ensures ':' in "data:" + mediaType && TakeUntil(After("data:" + mediaType, ':'), ':') == mediaType
  {
    assert "data:" + mediaType == "data" + ([':'] + mediaType) by {
      assert "data:" == "data" + [':'];
    }
    TakeUntilGlued("data", mediaType, ':');
    assert TakeUntil(mediaType, ':') == mediaType;
  }

  /**
   * `processFile`: a file whose type does not start with "image/" is
   * rejected with an alert and goes no further; any other file is read, and
   * its data URL, when the read succeeded, split into the selection handed
   * to the callback.
   */
  function ProcessFile(file: File): (r: Processed)
    ensures r.Rejected? <==> !IsImageType(file.mimeType)
    ensures r.Rejected? ==> r.alert == NotAnImageAlert
    ensures r.ReadThrew? <==> IsImageType(file.mimeType) && file.dataUrl.None?
    ensures r.Selected? ==> file.dataUrl.Some? && r.selection == ParseDataUrl(file.dataUrl.value)
  {
    if !IsImageType(file.mimeType) then Rejected(NotAnImageAlert)
    else match file.dataUrl
      case None => ReadThrew
      case Some(url) => Selected(ParseDataUrl(url))
  }

  /** Only the first file of a drop or a selection is processed; an empty list does nothing. */
  function ProcessFirst(files: seq<File>): (r: Option<Processed>)
    ensures r.None? <==> |files| == 0
  {
    if |files| == 0 then None else Some(ProcessFile(files[0]))
  }

  /** Files after the first never influence what is processed. */
  lemma OnlyFirstFileMatters(files: seq<File>, rest: seq<File>)
    requires |files| > 0
    ensures ProcessFirst(files + rest) == ProcessFirst(files)
  {
    assert (files + rest)[0] == files[0];
  }

  /** The drop zone, whose only state is whether a drag is over it. */
  class DropZone {
    var isDragging: bool

    constructor ()
      ensures !isDragging
    {
      isDragging := false;
    }

    /** `onDragOver`. */
    method DragOver()
      modifies this
      ensures isDragging
    {
      isDragging := true;
    }

    /** `onDragLeave`. */
    method DragLeave()
      modifies this
      ensures !isDragging
    {
      isDragging := false;
    }

    /** `handleDrop`: clears the highlight, then processes the first dropped file. */
    method HandleDrop(files: seq<File>) returns (r: Option<Processed>)
      modifies this
      ensures !isDragging
      ensures r == ProcessFirst(files)
    {
      isDragging := false;
      r := ProcessFirst(files);
    }

    /** `handleFileInput`: processes the first chosen file; the highlight is left as it is. */
    method HandleFileInput(files: seq<File>) returns (r: Option<Processed>)
      ensures r == ProcessFirst(files)
      ensures r.None? <==> |files| == 0
      ensures |files| > 0 ==> r == Some(ProcessFile(files[0]))
    {
      r := ProcessFirst(files);
    }
  }
}
