/**
  The legal documents screen (src/app/legal/legal-management.tsx): the content-type
  badge, the truncated preview, the per-document preview toggle and the
  single-document editor with its update guard.
*/
module LegalManagement {
  import opened Wrappers
  import opened Text

  /** A legal document as the screen receives it; the optional fields may be absent. */
  datatype LegalContent = LegalContent(
    postId: string,
    title: Option<string>,
    content: string,
    contentType: Option<string>,
    createdAt: Option<string>,
    updatedAt: Option<string>)

  /** The document kinds the badge knows; anything else is `Other`. */
  datatype ContentKind = Privacy | Terms | About | Faq | Other

  /** `switch (type?.toLowerCase())`: the kind of a type, ignoring letter case; an absent type
      is `Other`. */
  function KindOf(contentType: Option<string>): (r: ContentKind)
    ensures contentType.None? ==> r == Other
    ensures contentType.Some? ==> (r == Privacy <==> ToLower(contentType.value) == "privacy")
    ensures contentType.Some? ==> (r == Terms <==> ToLower(contentType.value) == "terms")
    ensures contentType.Some? ==> (r == About <==> ToLower(contentType.value) == "about")
    ensures contentType.Some? ==> (r == Faq <==> ToLower(contentType.value) == "faq")
  {
    if contentType.None? then Other
    else
      var t := ToLower(contentType.value);
      if t == "privacy" then Privacy
      else if t == "terms" then Terms
      else if t == "about" then About
      else if t == "faq" then Faq
      else Other
  }

  /** `getContentTypeLabel`. */
  function ContentTypeLabel(contentType: Option<string>): (r: string)
    ensures r == "Document légal" <==> KindOf(contentType) == Other
    ensures r == "FAQ" <==> KindOf(contentType) == Faq
    ensures KindOf(contentType) == Privacy ==> r == "Politique de confidentialité"
    ensures KindOf(contentType) == Terms ==> r == "Conditions d'utilisation"
    ensures KindOf(contentType) == About ==> r == "À propos"
  {
    match KindOf(contentType)
    case Privacy => "Politique de confidentialité"
    case Terms => "Conditions d'utilisation"
    case About => "À propos"
    case Faq => "FAQ"
    case Other => "Document légal"
  }

  /** The badge colours. */
  datatype BadgeColour = Blue | Green | Purple | Orange | Gray

  /** `getContentTypeColor`: the same keys as the label, gray by default. */
  function ContentTypeColour(contentType: Option<string>): (r: BadgeColour)
    ensures r == Gray <==> KindOf(contentType) == Other
    ensures r == Blue <==> KindOf(contentType) == Privacy
    ensures r == Green <==> KindOf(contentType) == Terms
    ensures r == Purple <==> KindOf(contentType) == About
    ensures r == Orange <==> KindOf(contentType) == Faq
  {
    match KindOf(contentType)
    case Privacy => Blue
    case Terms => Green
    case About => Purple
    case Faq => Orange
    case Other => Gray
  }

  /** Label and colour distinguish exactly the same types: two types share a label iff they share
      a colour; in particular the default label goes with gray and only with gray. */
  lemma LabelAndColourAgree(t: Option<string>, u: Option<string>)
    ensures ContentTypeLabel(t) == ContentTypeLabel(u) <==> ContentTypeColour(t) == ContentTypeColour(u)
  {
    assert ContentTypeLabel(t) == ContentTypeLabel(u) <==> KindOf(t) == KindOf(u) by {
      if KindOf(t) != KindOf(u) {
        assert ContentTypeLabel(t)[0] != ContentTypeLabel(u)[0] || |ContentTypeLabel(t)| != |ContentTypeLabel(u)|;
      }
    }
  }

  /** The badge ignores letter case: a type written in capitals gets the same label and colour. */
  lemma BadgeIgnoresCase(s: string)
    ensures ContentTypeLabel(Some(ToUpper(s))) == ContentTypeLabel(Some(s))
    ensures ContentTypeColour(Some(ToUpper(s))) == ContentTypeColour(Some(s))
  {
    LowerOfUpper(s);
  }

  /** `truncateContent`'s default `maxLength`. */
  const DefaultPreviewLength: int := 150

  /** `truncateContent(content, maxLength)`: short enough texts are kept; longer ones are cut to
      `maxLength` characters followed by "..." (`substring` treats a negative end as 0). */
  function TruncateContent(content: string, maxLength: int): (r: string)
    ensures |content| <= maxLength ==> r == content
    ensures 0 <= maxLength < |content| ==> |r| == maxLength + 3
    ensures 0 <= maxLength < |content| ==> r[..maxLength] == content[..maxLength] && r[maxLength..] == "..."
    ensures maxLength < 0 ==> r == "..."
  {
    if |content| <= maxLength then content
    else if maxLength < 0 then "..."
    else content[..maxLength] + "..."
  }

  /** The preview shown in view mode. */
  function Preview(content: string): string {
    TruncateContent(content, DefaultPreviewLength)
  }

  /** Two documents that agree on their first 150 characters and are both longer than that show the
      same preview. */
  lemma PreviewSeesOnlyThePrefix(a: string, b: string)
    requires |a| > DefaultPreviewLength && |b| > DefaultPreviewLength
    requires a[..DefaultPreviewLength] == b[..DefaultPreviewLength]
    ensures Preview(a) == Preview(b)
  {
    var pa, pb := Preview(a), Preview(b);
    assert |pa| == |pb|;
    forall i | 0 <= i < |pa| ensures pa[i] == pb[i] {
      if i < DefaultPreviewLength {
        assert pa[i] == pa[..DefaultPreviewLength][i];
        assert pb[i] == pb[..DefaultPreviewLength][i];
      } else {
        assert pa[i] == pa[DefaultPreviewLength..][i - DefaultPreviewLength];
        assert pb[i] == pb[DefaultPreviewLength..][i - DefaultPreviewLength];
      }
    }
  }

  /** `previewMode[postId]`: an absent key reads as `undefined`, i.e. not shown. */
  predicate PreviewShown(previewMode: map<string, bool>, postId: string) {
    postId in previewMode && previewMode[postId]
  }

  /** `togglePreview`'s update: flip the flag of `postId`, keep every other entry. */
  function Toggle(previewMode: map<string, bool>, postId: string): (r: map<string, bool>)
    ensures PreviewShown(r, postId) <==> !PreviewShown(previewMode, postId)
    ensures postId in r
    ensures forall k :: k != postId ==> (k in r <==> k in previewMode)
    ensures forall k :: k != postId && k in previewMode ==> r[k] == previewMode[k]
  {
    previewMode[postId := !PreviewShown(previewMode, postId)]
  }

  /** Toggling the same document twice shows every document as before (the map may have gained an
      explicit `false` entry). */
  lemma ToggleTwice(previewMode: map<string, bool>, postId: string, k: string)
    ensures PreviewShown(Toggle(Toggle(previewMode, postId), postId), k) == PreviewShown(previewMode, k)
  {
  }

  /** Toggles of different documents commute. */
  lemma TogglesCommute(previewMode: map<string, bool>, p: string, q: string)
    ensures Toggle(Toggle(previewMode, p), q) == Toggle(Toggle(previewMode, q), p)
  {
    if p != q {
      var vp, vq := !PreviewShown(previewMode, p), !PreviewShown(previewMode, q);
      assert PreviewShown(previewMode[p := vp], q) == PreviewShown(previewMode, q);
      assert PreviewShown(previewMode[q := vq], p) == PreviewShown(previewMode, p);
      assert previewMode[p := vp][q := vq] == previewMode[q := vq][p := vp];
    }
  }

  /** The call `onUpdateContent(postId, content)`. */
  datatype UpdateRequest = UpdateRequest(postId: string, content: string)

  class LegalManagement {
    /** The `legalContent` prop. */
    var legalContent: seq<LegalContent>
    /** The id of the document in edit mode, if any. */
    var editingContent: Option<string>
    var updatingContent: bool
    var previewMode: map<string, bool>
    /** The editor's text, `editContentData.content`. */
    var editContent: string

    constructor (legalContent: seq<LegalContent>)
      ensures this.legalContent == legalContent && editingContent == None && !updatingContent
      ensures previewMode == map[] && editContent == ""
    {
      this.legalContent := legalContent;
      editingContent := None;
      updatingContent := false;
      previewMode := map[];
      editContent := "";
    }

    /** The document `postId` is rendered in edit mode. */
    predicate Editing(postId: string)
      reads this
    {
      editingContent == Some(postId)
    }

    /** "Modifier": edit this document, starting from its current text. */
    method HandleEditClick(c: LegalContent)
      modifies this`editingContent, this`editContent
      ensures Editing(c.postId) && editContent == c.content
    {
      editingContent := Some(c.postId);
      editContent := c.content;
    }

    /** Typing in the editor. */
    method EditText(text: string)
      modifies this`editContent
      ensures editContent == text
    {
      editContent := text;
    }

    /** `handleUpdateContent(postId)` up to the `await`: blank text does nothing; otherwise the
        update is issued with `updatingContent` set. */
    method BeginUpdate(postId: string) returns (request: Option<UpdateRequest>)
      modifies this`updatingContent
      ensures IsBlank(editContent) ==> request == None && updatingContent == old(updatingContent)
      ensures !IsBlank(editContent) ==> request == Some(UpdateRequest(postId, editContent)) && updatingContent
    {
      if IsBlank(editContent) {
        request := None;
      } else {
        updatingContent := true;
        request := Some(UpdateRequest(postId, editContent));
      }
    }

    /** `handleUpdateContent` after the `await`: success leaves edit mode, failure stays in it; the
        flag is cleared either way. The editor's text is not cleared on success. */
    method FinishUpdate(outcome: Outcome)
      modifies this`updatingContent, this`editingContent
      ensures !updatingContent
      ensures outcome == Ok ==> editingContent == None
      ensures outcome == Err ==> editingContent == old(editingContent)
    {
      if outcome == Ok {
        editingContent := None;
      }
      updatingContent := false;
    }

    /** `cancelEdit`. */
    method CancelEdit()
      modifies this`editingContent, this`editContent
      ensures editingContent == None && editContent == ""
    {
      editingContent := None;
      editContent := "";
    }

    /** `togglePreview(postId)`. */
    method TogglePreview(postId: string)
      modifies this`previewMode
      ensures previewMode == Toggle(old(previewMode), postId)
    {
      previewMode := Toggle(previewMode, postId);
    }
  }
}
