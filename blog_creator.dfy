/**
 * The blog editor of the links-and-blog workspace: the post list, the
 * writing form and the handlers that save, edit, delete and cancel.
 */
module BlogCreator {
  import opened Seqs

  datatype BlogPost = BlogPost(id: string, title: string, content: string, excerpt: string,
                               createdAt: int, updatedAt: int)

  const ExcerptLength := 150
  const Ellipsis := "..."

  /** `generateExcerpt`: short content as is, long content cut to 150 characters plus "...". */
  function GenerateExcerpt(content: string): (r: string)
    ensures |content| <= ExcerptLength ==> r == content
    ensures |content| > ExcerptLength ==> r == content[..ExcerptLength] + Ellipsis
    ensures |r| <= ExcerptLength + |Ellipsis|
  {
    Slice(content, ExcerptLength) + (if |content| > ExcerptLength then Ellipsis else [])
  }

  /** The post with that id rewritten from the form, keeping its id and creation time. */
  function EditedPosts(posts: seq<BlogPost>, id: string, title: string, content: string, now: int): (r: seq<BlogPost>)
    ensures |r| == |posts|
    ensures forall i :: 0 <= i < |posts| ==>
              r[i] == if posts[i].id == id
                      then BlogPost(posts[i].id, title, content, GenerateExcerpt(content), posts[i].createdAt, now)
                      else posts[i]
  {
    Map(posts, (p: BlogPost) => if p.id == id then p.(title := title, content := content,
                                                      excerpt := GenerateExcerpt(content), updatedAt := now) else p)
  }

  /** The filter predicate "the post is not `id`". */
  function NotPost(id: string): BlogPost -> bool
  {
    (p: BlogPost) => p.id != id
  }

  /** `deletePost`: the other posts remain, in their order. */
  function WithoutPost(posts: seq<BlogPost>, id: string): (r: seq<BlogPost>)
    ensures forall p :: p in r <==> p in posts && p.id != id
    ensures r == Filter(posts, NotPost(id))
  {
    var r := Filter(posts, NotPost(id));
    forall p ensures p in r <==> p in posts && p.id != id {
      FilterMembership(posts, NotPost(id), p);
    }
    r
  }

  /** The "Updated" badge of a post card. */
  predicate ShowsUpdated(p: BlogPost)
  {
    p.updatedAt != p.createdAt
  }

  /** A newly created post has no badge; an edited one has it exactly when it was edited at another time than its creation. */
  lemma UpdatedBadge(posts: seq<BlogPost>, id: string, title: string, content: string, now: int, newId: string)
    ensures !ShowsUpdated(BlogPost(newId, title, content, GenerateExcerpt(content), now, now))
    ensures forall i :: 0 <= i < |posts| && posts[i].id == id ==>
              (ShowsUpdated(EditedPosts(posts, id, title, content, now)[i]) <==> now != posts[i].createdAt)
  {
  }

  /** Editing never changes a post's id or creation time. */
  lemma EditKeepsIdentity(posts: seq<BlogPost>, id: string, title: string, content: string, now: int)
    ensures forall i :: 0 <= i < |posts| ==>
              EditedPosts(posts, id, title, content, now)[i].id == posts[i].id &&
              EditedPosts(posts, id, title, content, now)[i].createdAt == posts[i].createdAt
  {
  }

  class Editor {
    var posts: seq<BlogPost>
    var isWriting: bool
    var editingId: Option<string>
    var title: string
    var content: string

    /** Not writing, empty form, no post being edited. */
    predicate Idle()
      reads this
    {
      title == [] && content == [] && !isWriting && editingId == None
    }

    constructor()
      ensures posts == [] && Idle()
    {
      posts := [];
      isWriting := false;
      editingId := None;
      title := [];
      content := [];
    }

    /**
     * `saveBlogPost`, with the fresh id and the clock passed in. An empty
     * title or content changes nothing. With a (non-empty) id being edited,
     * that post is rewritten; otherwise a new post goes first. Then the form
     * is closed and cleared.
     */
    method SaveBlogPost(newId: string, now: int)
      modifies this
      ensures old(title) == [] || old(content) == [] ==> unchanged(this)
      ensures old(title) != [] && old(content) != [] ==> Idle()
      ensures old(title) != [] && old(content) != [] && old(editingId).Some? && old(editingId).value != [] ==>
                posts == EditedPosts(old(posts), old(editingId).value, old(title), old(content), now)
      ensures old(title) != [] && old(content) != [] && !(old(editingId).Some? && old(editingId).value != []) ==>
                posts == [BlogPost(newId, old(title), old(content), GenerateExcerpt(old(content)), now, now)] + old(posts)
    {
      if title == [] || content == [] {
        return;
      }
      if editingId.Some? && editingId.value != [] {
        posts := EditedPosts(posts, editingId.value, title, content, now);
      } else {
        posts := [BlogPost(newId, title, content, GenerateExcerpt(content), now, now)] + posts;
      }
      title := [];
      content := [];
      isWriting := false;
      editingId := None;
    }

    /** `editPost`: load a post into the form. */
    method EditPost(p: BlogPost)
      modifies this`title, this`content, this`editingId, this`isWriting
      ensures title == p.title && content == p.content && editingId == Some(p.id) && isWriting
    {
      title := p.title;
      content := p.content;
      editingId := Some(p.id);
      isWriting := true;
    }

    /** `deletePost` */
    method DeletePost(id: string)
      modifies this`posts
      ensures posts == WithoutPost(old(posts), id)
    {
      posts := WithoutPost(posts, id);
    }

    /** `cancelEditing`: the form is cleared and closed; the posts stay as they are. */
    method CancelEditing()
      modifies this`title, this`content, this`isWriting, this`editingId
      ensures Idle()
    {
      title := [];
      content := [];
      isWriting := false;
      editingId := None;
    }
  }

  /** Editing a post and saving without changes rewrites only that post's excerpt and time stamp. */
  method EditAndSave(editor: Editor, p: BlogPost, now: int)
    requires p.id != [] && p.title != [] && p.content != []
    modifies editor
    ensures editor.Idle()
    ensures editor.posts == EditedPosts(old(editor.posts), p.id, p.title, p.content, now)
  {
    editor.EditPost(p);
    editor.SaveBlogPost([], now);
  }
}
