/**
 * The post editor: a form with title, type, content, tags and media, saved
 * as a draft or published. The route's post id, when present, selects an
 * update of that post instead of a create. Remote calls are abstract steps
 * whose outcome is a parameter.
 */
module Editor {
  import opened Wrappers
  import opened Lists
  import opened Text
  import opened Entities
  import Tags

  /** The form's fields; `postType` is the `type` field. */
  datatype PostForm = PostForm(
    title: string,
    content: string,
    postType: string,
    status: string,
    tags: seq<string>,
    featuredImage: string,
    mediaUrls: seq<string>)

  /** The form on mount: an empty draft poem. */
  function InitialForm(): (f: PostForm)
    ensures f.postType == "poem" && f.status == "draft"
    ensures f.title == [] && f.content == [] && f.tags == [] && f.featuredImage == [] && f.mediaUrls == []
  {
    PostForm("", "", "poem", "draft", [], "", [])
  }

  /** The inputs that report through the shared change handler, by their `name`. */
  datatype Field = Title | PostType | Content

  /** handleChange: the named field takes the input's value; every other field stays. */
  function ChangeField(form: PostForm, field: Field, value: string): (r: PostForm)
    ensures r.title == (if field == Title then value else form.title)
    ensures r.postType == (if field == PostType then value else form.postType)
    ensures r.content == (if field == Content then value else form.content)
    ensures r.status == form.status && r.tags == form.tags
    ensures r.featuredImage == form.featuredImage && r.mediaUrls == form.mediaUrls
  {
    match field
    case Title => form.(title := value)
    case PostType => form.(postType := value)
    case Content => form.(content := value)
  }

  /** The record sent on save: the form with its status replaced by the chosen one. */
  function PostData(form: PostForm, publishStatus: string): (r: PostForm)
    ensures r.status == publishStatus
    ensures r.(status := form.status) == form
  {
    form.(status := publishStatus)
  }

  /** The remote call a save makes. */
  datatype PostCall = CreatePost(data: PostForm) | UpdatePost(id: Id, data: PostForm)

  /**
   * What Save sends: nothing when the trimmed title or the trimmed content is
   * empty; otherwise the post data, as an update of the routed post or as a
   * new post.
   */
  function SaveRequest(routeId: Option<Id>, form: PostForm, publishStatus: string): (r: Option<PostCall>)
    ensures r.None? <==> IsBlank(form.title) || IsBlank(form.content)
    ensures r.Some? ==> r.value.data == PostData(form, publishStatus) && (r.value.UpdatePost? <==> routeId.Some?)
    ensures r.Some? && routeId.Some? ==> r.value.id == routeId.value
  {
    if IsBlank(form.title) || IsBlank(form.content) then None
    else if routeId.Some? then Some(UpdatePost(routeId.value, PostData(form, publishStatus)))
    else Some(CreatePost(PostData(form, publishStatus)))
  }

  /**
   * The public URLs of a batch of uploads, in file order, or None when any
   * upload failed (the batch is awaited as a whole, so one failure rejects it).
   */
  function UploadedUrls(uploads: seq<Option<string>>): (r: Option<seq<string>>)
    ensures r.Some? <==> forall i :: 0 <= i < |uploads| ==> uploads[i].Some?
    ensures r.Some? ==> |r.value| == |uploads| && forall i :: 0 <= i < |uploads| ==> r.value[i] == uploads[i].value
  {
    if uploads == [] then Some([])
    else
      var rest := UploadedUrls(uploads[1..]);
      assert forall i :: 1 <= i < |uploads| ==> uploads[i] == uploads[1..][i - 1];
      if uploads[0].Some? && rest.Some? then Some([uploads[0].value] + rest.value) else None
  }

  function Identity(url: string): string {
    url
  }

  /** handleRemoveMedia: every entry equal to `url` goes, the others stay in order. */
  function RemoveMedia(urls: seq<string>, url: string): (r: seq<string>)
    ensures url !in r
    ensures forall i :: 0 <= i < |urls| && urls[i] != url ==> urls[i] in r
    ensures forall i :: 0 <= i < |r| ==> r[i] in urls
    ensures Subsequence(r, urls)
    ensures forall x :: x != url ==> multiset(r)[x] == multiset(urls)[x]
  {
    RemoveKey(urls, Identity, url)
  }

  /** Removing a freshly appended URL that was not in the list before restores the list. */
  lemma RemoveMediaUndoesAppend(urls: seq<string>, url: string)
    requires url !in urls
    ensures RemoveMedia(urls + [url], url) == urls
  {
    RemoveKeyAppend(urls, [url], Identity, url);
    assert RemoveKey([url], Identity, url) == [];
  }

  /** The editor page; the loading and uploading spinners are left out. */
  class EditorPage {
    /** The `:id` of the route, fixed for the page's lifetime. */
    const routeId: Option<Id>
    var formData: PostForm
    var tagInput: string

    constructor (routeId: Option<Id>)
      ensures this.routeId == routeId && formData == InitialForm() && tagInput == ""
    {
      this.routeId := routeId;
      formData := InitialForm();
      tagInput := "";
    }

    /** loadPost, run on mount when the route has an id: the fetched post fills the form; a failed fetch changes nothing. */
    method LoadPost(fetched: Option<PostForm>)
      modifies this
      ensures formData == (if routeId.Some? && fetched.Some? then fetched.value else old(formData))
      ensures tagInput == old(tagInput)
    {
      if routeId.Some? && fetched.Some? {
        formData := fetched.value;
      }
    }

    method HandleChange(field: Field, value: string)
      modifies this
      ensures formData == ChangeField(old(formData), field, value) && tagInput == old(tagInput)
    {
      formData := ChangeField(formData, field, value);
    }

    method SetTagInput(input: string)
      modifies this
      ensures tagInput == input && formData == old(formData)
    {
      tagInput := input;
    }

    /** A key press in the tag field: Enter with a non-blank input adds the tag (if new) and clears the field. */
    method HandleAddTag(key: string)
      modifies this
      ensures if key == "Enter" && !IsBlank(old(tagInput)) then
          formData == old(formData).(tags := Tags.AddTag(old(formData.tags), old(tagInput))) && tagInput == ""
        else
          formData == old(formData) && tagInput == old(tagInput)
      ensures NoDuplicates(old(formData.tags)) ==> NoDuplicates(formData.tags)
    {
      if key == "Enter" && !IsBlank(tagInput) {
        formData := formData.(tags := Tags.AddTag(formData.tags, tagInput));
        tagInput := "";
      }
    }

    method HandleRemoveTag(tag: string)
      modifies this
      ensures formData == old(formData).(tags := Tags.RemoveTag(old(formData.tags), tag)) && tagInput == old(tagInput)
      ensures NoDuplicates(old(formData.tags)) ==> NoDuplicates(formData.tags)
    {
      formData := formData.(tags := Tags.RemoveTag(formData.tags, tag));
    }

    /**
     * handleFileUpload: with no files nothing happens; when every upload
     * succeeds their URLs are appended after the existing media in file
     * order; when any fails the media list stays.
     */
    method HandleFileUpload(uploads: seq<Option<string>>)
      modifies this
      ensures var urls := UploadedUrls(uploads);
        formData == (if uploads != [] && urls.Some? then old(formData).(mediaUrls := old(formData.mediaUrls) + urls.value) else old(formData))
      ensures tagInput == old(tagInput)
    {
      if uploads == [] {
        return;
      }
      var urls := UploadedUrls(uploads);
      if urls.Some? {
        formData := formData.(mediaUrls := formData.mediaUrls + urls.value);
      }
    }

    method HandleRemoveMedia(url: string)
      modifies this
      ensures formData == old(formData).(mediaUrls := RemoveMedia(old(formData.mediaUrls), url)) && tagInput == old(tagInput)
    {
      formData := formData.(mediaUrls := RemoveMedia(formData.mediaUrls, url));
    }

    /**
     * Save as `publishStatus`. Returns the call made (none when validation
     * fails) and whether the page then navigates to the feed, which it does
     * exactly when the call succeeded. The form itself is not changed.
     */
    method HandleSave(publishStatus: string, succeeded: bool) returns (call: Option<PostCall>, navigated: bool)
      ensures call == SaveRequest(routeId, formData, publishStatus)
      ensures navigated <==> call.Some? && succeeded
    {
      if IsBlank(formData.title) || IsBlank(formData.content) {
        return None, false;
      }
      var postData := formData.(status := publishStatus);
      if routeId.Some? {
        call := Some(UpdatePost(routeId.value, postData));
      } else {
        call := Some(CreatePost(postData));
      }
      navigated := succeeded;
    }
  }
}
