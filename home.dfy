/** The home page's editable content (src/pages/Home.tsx with
    src/types/home.ts): fetched JSON replaces the displayed content only when
    it has the shape the page renders. */
module Home {
  import opened Common
  import opened Json

  /** `isHomeContent`: `hero.title`, `hero.subtitle` and `whyChooseUs.title`
      are defined and `whyChooseUs.items` is an array, each read through
      optional chaining from the raw value. */
  function IsHomeContent(c: Json): (ok: bool)
    ensures ok <==>
      && c.JObject?
      && "hero" in c.fields && c.fields["hero"].JObject?
      && "title" in c.fields["hero"].fields
      && "subtitle" in c.fields["hero"].fields
      && "whyChooseUs" in c.fields && c.fields["whyChooseUs"].JObject?
      && "title" in c.fields["whyChooseUs"].fields
      && "items" in c.fields["whyChooseUs"].fields
      && c.fields["whyChooseUs"].fields["items"].JArray?
  {
    var hero := Member(Some(c), "hero");
    var why := Member(Some(c), "whyChooseUs");
    && Member(hero, "title").Some?
    && Member(hero, "subtitle").Some?
    && Member(why, "title").Some?
    && IsArray(Member(why, "items"))
  }

  function Item(title: string, description: string): Json {
    JObject(map["title" := JString(title), "description" := JString(description)])
  }

  /** `defaultContent` (types/home.ts:23-45); it passes the page's own guard. */
  function DefaultContent(): (c: Json)
    ensures IsHomeContent(c)
  {
    JObject(map[
      "hero" := JObject(map[
        "title" := JString("Welcome to Our Platform"),
        "subtitle" := JString("Discover innovative solutions for your business needs")]),
      "whyChooseUs" := JObject(map[
        "title" := JString("Why Choose Us"),
        "items" := JArray([
          Item("Quality Service", "We deliver exceptional quality in everything we do"),
          Item("Expert Team", "Our experienced team is here to support you"),
          Item("Customer Focus", "Your success is our priority")])])])
  }

  /** What the `page_content` query returns: an error, or `data`, which is
      null when there is no home row and otherwise carries the row's
      `content` column. */
  datatype ContentResponse = QueryError | QueryData(content: Option<Json>)

  /** The fetched content passes the guard and will be displayed. */
  predicate Accepted(response: ContentResponse) {
    response.QueryData? && response.content.Some? && IsHomeContent(response.content.value)
  }

  /** The content after one fetch (Home.tsx:27-54). */
  function ContentAfterFetch(current: Json, response: ContentResponse): (next: Json)
    ensures Accepted(response) ==> next == response.content.value
    ensures !Accepted(response) ==> next == current
    ensures IsHomeContent(current) ==> IsHomeContent(next)
  {
    match response
    case QueryError => current
    case QueryData(content) =>
      if content.Some? && Truthy(content.value) && IsHomeContent(content.value)
      then content.value else current
  }

  /** The toasts one fetch raises: an error toast on a failed query, a
      warning when truthy content has the wrong shape, none otherwise. */
  function ToastsAfterFetch(response: ContentResponse): (ts: seq<Toast>)
    ensures |ts| <= 1
    ensures response.QueryError? <==> ts == [PageContentFetchFailed]
    ensures response.QueryData? ==>
      (ts == [InvalidPageContent] <==>
        response.content.Some? && Truthy(response.content.value) && !IsHomeContent(response.content.value))
    ensures ts == [InvalidPageContent] ==> !Accepted(response)
    ensures Accepted(response) ==> ts == []
    ensures response.QueryData? ==> ts == [] || ts == [InvalidPageContent]
  {
    match response
    case QueryError => [PageContentFetchFailed]
    case QueryData(content) =>
      if content.Some? && Truthy(content.value) && !IsHomeContent(content.value)
      then [InvalidPageContent] else []
  }

  /** The `!content` loading branch (Home.tsx:79). */
  predicate ShowsLoading(content: Json) {
    !Truthy(content)
  }

  /** Content that passes the guard is truthy, so the truthiness test on
      `data?.content` never decides whether content is replaced, and a page
      whose content passed the guard never shows its loading branch. */
  lemma GuardImpliesTruthy(c: Json)
    ensures IsHomeContent(c) ==> Truthy(c) && !ShowsLoading(c)
  {
  }

  class HomePage {
    var content: Json
    var toasts: seq<Toast>

    ghost predicate Valid()
      reads this
    {
      IsHomeContent(content)
    }

    /** `useState<HomeContent>(defaultContent)`. */
    constructor ()
      ensures Valid() && content == DefaultContent() && toasts == []
    {
      content := DefaultContent();
      toasts := [];
    }

    /** `fetchContent` once the query has answered. */
    method OnContentFetched(response: ContentResponse)
      modifies this
      ensures content == ContentAfterFetch(old(content), response)
      ensures toasts == old(toasts) + ToastsAfterFetch(response)
      ensures old(Valid()) ==> Valid()
    {
      if response.QueryError? {
        toasts := toasts + [PageContentFetchFailed];
        return;
      }
      var data := response.content;
      if data.Some? && Truthy(data.value) {
        if IsHomeContent(data.value) {
          content := data.value;
        } else {
          toasts := toasts + [InvalidPageContent];
        }
      }
    }
  }
}
