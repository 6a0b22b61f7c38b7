/**
  The `VideoMetadata` record of lib/hooks.ts as the wizard holds it: a
  `Partial<VideoMetadata>`, so every field may be absent. `savedAt` is not part of
  `VideoMetadata`, but a draft restored from storage carries it along.
 */
module Metadata {
  import opened Wrappers
  import opened Utils

  datatype Visibility = Public | Unlisted | Private

  datatype VideoMetadata = VideoMetadata(
    title: Option<string>,
    description: Option<string>,
    tags: Option<seq<string>>,
    category: Option<string>,
    language: Option<string>,
    allowComments: Option<bool>,
    addToPlaylist: Option<bool>,
    visibility: Option<Visibility>,
    scheduledAt: Option<string>,
    thumbnailIndex: Option<int>,
    customThumbnail: Option<File>,
    trimStart: Option<real>,
    trimEnd: Option<real>,
    savedAt: Option<string>)

  /** The keys of `VideoMetadata`. */
  datatype FieldName =
    | TitleField | DescriptionField | TagsField | CategoryField | LanguageField
    | AllowCommentsField | AddToPlaylistField | VisibilityField | ScheduledAtField
    | ThumbnailIndexField | CustomThumbnailField | TrimStartField | TrimEndField

  /** A value for one key, tagged with the key. */
  datatype FieldValue =
    | Title(s: string)
    | Description(s: string)
    | Tags(tags: seq<string>)
    | Category(s: string)
    | Language(s: string)
    | AllowComments(b: bool)
    | AddToPlaylist(b: bool)
    | VisibilityValue(v: Visibility)
    | ScheduledAt(s: string)
    | ThumbnailIndex(i: int)
    | CustomThumbnail(f: File)
    | TrimStart(x: real)
    | TrimEnd(x: real)

  function FieldOf(v: FieldValue): FieldName {
    match v
    case Title(_) => TitleField
    case Description(_) => DescriptionField
    case Tags(_) => TagsField
    case Category(_) => CategoryField
    case Language(_) => LanguageField
    case AllowComments(_) => AllowCommentsField
    case AddToPlaylist(_) => AddToPlaylistField
    case VisibilityValue(_) => VisibilityField
    case ScheduledAt(_) => ScheduledAtField
    case ThumbnailIndex(_) => ThumbnailIndexField
    case CustomThumbnail(_) => CustomThumbnailField
    case TrimStart(_) => TrimStartField
    case TrimEnd(_) => TrimEndField
  }

  /** `m[field]`, or `None` when the key is absent. */
  function Get(m: VideoMetadata, f: FieldName): (r: Option<FieldValue>)
    ensures r.Some? ==> FieldOf(r.value) == f
  {
    match f
    case TitleField => if m.title.Some? then Some(Title(m.title.value)) else None
    case DescriptionField => if m.description.Some? then Some(Description(m.description.value)) else None
    case TagsField => if m.tags.Some? then Some(Tags(m.tags.value)) else None
    case CategoryField => if m.category.Some? then Some(Category(m.category.value)) else None
    case LanguageField => if m.language.Some? then Some(Language(m.language.value)) else None
    case AllowCommentsField => if m.allowComments.Some? then Some(AllowComments(m.allowComments.value)) else None
    case AddToPlaylistField => if m.addToPlaylist.Some? then Some(AddToPlaylist(m.addToPlaylist.value)) else None
    case VisibilityField => if m.visibility.Some? then Some(VisibilityValue(m.visibility.value)) else None
    case ScheduledAtField => if m.scheduledAt.Some? then Some(ScheduledAt(m.scheduledAt.value)) else None
    case ThumbnailIndexField => if m.thumbnailIndex.Some? then Some(ThumbnailIndex(m.thumbnailIndex.value)) else None
    case CustomThumbnailField => if m.customThumbnail.Some? then Some(CustomThumbnail(m.customThumbnail.value)) else None
    case TrimStartField => if m.trimStart.Some? then Some(TrimStart(m.trimStart.value)) else None
    case TrimEndField => if m.trimEnd.Some? then Some(TrimEnd(m.trimEnd.value)) else None
  }

  /** A record is determined by what `Get` reads from it and by `savedAt`. */
  lemma GetDetermines(a: VideoMetadata, b: VideoMetadata)
    requires forall f :: Get(a, f) == Get(b, f)
    requires a.savedAt == b.savedAt
    ensures a == b
  {
    assert a.title == b.title by { assert Get(a, TitleField) == Get(b, TitleField); }
    assert a.description == b.description by { assert Get(a, DescriptionField) == Get(b, DescriptionField); }
    assert a.tags == b.tags by { assert Get(a, TagsField) == Get(b, TagsField); }
    assert a.category == b.category by { assert Get(a, CategoryField) == Get(b, CategoryField); }
    assert a.language == b.language by { assert Get(a, LanguageField) == Get(b, LanguageField); }
    assert a.allowComments == b.allowComments by { assert Get(a, AllowCommentsField) == Get(b, AllowCommentsField); }
    assert a.addToPlaylist == b.addToPlaylist by { assert Get(a, AddToPlaylistField) == Get(b, AddToPlaylistField); }
    assert a.visibility == b.visibility by { assert Get(a, VisibilityField) == Get(b, VisibilityField); }
    assert a.scheduledAt == b.scheduledAt by { assert Get(a, ScheduledAtField) == Get(b, ScheduledAtField); }
    assert a.thumbnailIndex == b.thumbnailIndex by { assert Get(a, ThumbnailIndexField) == Get(b, ThumbnailIndexField); }
    assert a.customThumbnail == b.customThumbnail by { assert Get(a, CustomThumbnailField) == Get(b, CustomThumbnailField); }
    assert a.trimStart == b.trimStart by { assert Get(a, TrimStartField) == Get(b, TrimStartField); }
    assert a.trimEnd == b.trimEnd by { assert Get(a, TrimEndField) == Get(b, TrimEndField); }
  }

  /**
    `{...m, [field]: val}`: the named key now holds the value; every other key, and
    `savedAt`, read as before.
   */
  function WithField(m: VideoMetadata, v: FieldValue): (r: VideoMetadata)
    ensures Get(r, FieldOf(v)) == Some(v)
    ensures forall f :: f != FieldOf(v) ==> Get(r, f) == Get(m, f)
    ensures r.savedAt == m.savedAt
  {
    match v
    case Title(s) => m.(title := Some(s))
    case Description(s) => m.(description := Some(s))
    case Tags(t) => m.(tags := Some(t))
    case Category(s) => m.(category := Some(s))
    case Language(s) => m.(language := Some(s))
    case AllowComments(b) => m.(allowComments := Some(b))
    case AddToPlaylist(b) => m.(addToPlaylist := Some(b))
    case VisibilityValue(x) => m.(visibility := Some(x))
    case ScheduledAt(s) => m.(scheduledAt := Some(s))
    case ThumbnailIndex(i) => m.(thumbnailIndex := Some(i))
    case CustomThumbnail(f) => m.(customThumbnail := Some(f))
    case TrimStart(x) => m.(trimStart := Some(x))
    case TrimEnd(x) => m.(trimEnd := Some(x))
  }

  /** Setting a key twice keeps only the second value. */
  lemma WithFieldTwice(m: VideoMetadata, v: FieldValue, w: FieldValue)
    requires FieldOf(v) == FieldOf(w)
    ensures WithField(WithField(m, v), w) == WithField(m, w)
  {
    GetDetermines(WithField(WithField(m, v), w), WithField(m, w));
  }
}
