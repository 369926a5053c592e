// The transfer objects the REST controllers exchange as JSON. Entity DTOs
// carry the entity's id under their own name (`blogId`, `commentId`, ...)
// and, unlike the entities, compare it in `equals`. Four of them can write
// themselves onto an entity (`overwriteEntity`): a `null` field, and an id
// that is not positive, leave the entity's field as it was.
//
// The hypermedia links of the DTOs' common superclass are not modelled. The
// DTOs that build on the superclass's `equals` and `hashCode` (blog entry,
// blog comment, photo entry) are only ever given empty link lists by their
// assemblers, so there the superclass contributes "not null" to `equals` and
// the hash 1 of an empty list to `hashCode`.

module Dto {
  import opened JavaLang
  import opened Models

  /** `hashCode` of the empty link list the superclass holds. */
  const EmptyLinksHash: int32 := 1

  /** The rule every `overwriteEntity` applies to a nullable field: `null` keeps the current value. */
  function Patch<T>(update: Option<T>, current: Option<T>): Option<T>
  {
    if update.Some? then update else current
  }

  /** The rule for ids: only a positive DTO id is written to the entity. */
  function PatchId(update: int, current: int): int
  {
    if update > 0 then update else current
  }

  /** The same rule for a creation date, which is a reference. */
  function PatchDate(update: Date?, current: Date?): Date?
  {
    if update != null then update else current
  }

  lemma PatchLaws<T>(u: Option<T>, c: Option<T>, id: int, cur: int)
    ensures Patch(u, Patch(u, c)) == Patch(u, c) && Patch(None, c) == c
    ensures Patch(u, c) == u || Patch(u, c) == c
    ensures u.Some? ==> Patch(u, c) == u
    ensures PatchId(id, PatchId(id, cur)) == PatchId(id, cur)
    ensures id <= 0 ==> PatchId(id, cur) == cur
    ensures id > 0 ==> PatchId(id, cur) == id
  {
  }

  class UserDto {
    var userId: int
    var username: Option<string>
    var password: Option<string>
    var email: Option<string>
    var roles: Option<set<string>>
    var isBanned: bool

    constructor ()
      ensures userId == 0 && username == None && password == None && email == None
      ensures roles == None && !isBanned
    {
      userId := 0;
      username := None;
      password := None;
      email := None;
      roles := None;
      isBanned := false;
    }

    method SetUserId(id: int)
      modifies this`userId
      ensures userId == id
    {
      userId := id;
    }

    method SetUsername(username: Option<string>)
      modifies this`username
      ensures this.username == username
    {
      this.username := username;
    }

    /** Accepted from JSON, never written back to JSON. */
    method SetPassword(password: Option<string>)
      modifies this`password
      ensures this.password == password
    {
      this.password := password;
    }

    method SetEmail(email: Option<string>)
      modifies this`email
      ensures this.email == email
    {
      this.email := email;
    }

    method SetRoles(roles: Option<set<string>>)
      modifies this`roles
      ensures this.roles == roles
    {
      this.roles := roles;
    }

    method SetBanned(isBanned: bool)
      modifies this`isBanned
      ensures this.isBanned == isBanned
    {
      this.isBanned := isBanned;
    }

    /**
     * The user DTO's own `overwriteEntity` is called by the blog DTOs but is
     * not part of this model: this stand-in promises only what every caller
     * relies on, that the object it was given comes back.
     */
    method OverwriteEntity(user: User) returns (r: User)
      modifies user
      ensures r == user
    {
      r := user;
    }

    /** `UserDto.equals`: same email, id, ban flag, password, role names and username. */
    predicate Equals(other: UserDto?)
      reads this, other
    {
      other != null && email == other.email && userId == other.userId && isBanned == other.isBanned
      && password == other.password && roles == other.roles && username == other.username
    }

    ghost function HashCode(): int32
      reads this
    {
      var h1 := HashStep(1, NullableStringHash(email));
      var h2 := HashStep(h1, Int32Cast(userId));
      var h3 := HashStep(h2, BoolHash(isBanned));
      var h4 := HashStep(h3, NullableStringHash(password));
      var h5 := HashStep(h4, OptionHash(roles, (s: set<string>) => SetHash(s, StringHash)));
      HashStep(h5, NullableStringHash(username))
    }
  }

  predicate UserDtosEqual(a: UserDto?, b: UserDto?)
    reads a, b
  {
    if a == null then b == null else a.Equals(b)
  }

  ghost function UserDtoHash(u: UserDto?): int32
    reads u
  {
    if u == null then 0 else u.HashCode()
  }

  lemma UserDtoEqualsContract(a: UserDto, b: UserDto, c: UserDto)
    ensures a.Equals(a) && !a.Equals(null)
    ensures a.Equals(b) == b.Equals(a)
    ensures a.Equals(b) && b.Equals(c) ==> a.Equals(c)
    ensures a.Equals(b) ==> a.HashCode() == b.HashCode()
  {
  }

  /** Unlike `User.equals`, the DTO's equality looks at the id and the ban flag too. */
  lemma UserDtoEqualsSeesIdAndBan(a: UserDto, b: UserDto)
    requires a.userId != b.userId || a.isBanned != b.isBanned
    ensures !a.Equals(b)
  {
  }

  class BlogEntryDto {
    var blogId: int
    var title: Option<string>
    var content: Option<string>
    var imageLink: Option<string>
    var dateCreated: Date?
    var author: UserDto?

    constructor ()
      ensures blogId == 0 && title == None && content == None && imageLink == None
      ensures dateCreated == null && author == null
    {
      blogId := 0;
      title := None;
      content := None;
      imageLink := None;
      dateCreated := null;
      author := null;
    }

    method SetBlogId(blogId: int)
      modifies this`blogId
      ensures this.blogId == blogId
    {
      this.blogId := blogId;
    }

    method SetTitle(title: Option<string>)
      modifies this`title
      ensures this.title == title
    {
      this.title := title;
    }

    method SetContent(content: Option<string>)
      modifies this`content
      ensures this.content == content
    {
      this.content := content;
    }

    method SetImageLink(imageLink: Option<string>)
      modifies this`imageLink
      ensures this.imageLink == imageLink
    {
      this.imageLink := imageLink;
    }

    method SetDateCreated(dateCreated: Date?)
      modifies this`dateCreated
      ensures this.dateCreated == dateCreated
    {
      this.dateCreated := dateCreated;
    }

    method SetAuthor(author: UserDto?)
      modifies this`author
      ensures this.author == author
    {
      this.author := author;
    }

    /**
     * Writes the non-null fields, and a positive id, onto `blogEntry` and
     * returns that same object. A present author becomes a new `User` built
     * by the author DTO; the creation date is shared, not copied; the
     * comment list is never touched, and neither is the DTO.
     */
    method OverwriteEntity(blogEntry: BlogEntry) returns (r: BlogEntry)
      modifies blogEntry
      ensures r == blogEntry
      ensures blogEntry.id == PatchId(blogId, old(blogEntry.id))
      ensures blogEntry.title == Patch(title, old(blogEntry.title))
      ensures blogEntry.content == Patch(content, old(blogEntry.content))
      ensures blogEntry.imageLink == Patch(imageLink, old(blogEntry.imageLink))
      ensures blogEntry.dateCreated == PatchDate(dateCreated, old(blogEntry.dateCreated))
      ensures author == null ==> blogEntry.author == old(blogEntry.author)
      ensures author != null ==> blogEntry.author != null && fresh(blogEntry.author)
      ensures blogEntry.comments == old(blogEntry.comments)
    {
      WriteFields(blogEntry);
      if author != null {
        var user := new User();
        var built := author.OverwriteEntity(user);
        blogEntry.SetAuthor(built);
      }
      r := blogEntry;
    }

    /** The part of `overwriteEntity` that copies the DTO's own fields. */
    method WriteFields(blogEntry: BlogEntry)
      modifies blogEntry
      ensures blogEntry.id == PatchId(blogId, old(blogEntry.id))
      ensures blogEntry.title == Patch(title, old(blogEntry.title))
      ensures blogEntry.content == Patch(content, old(blogEntry.content))
      ensures blogEntry.imageLink == Patch(imageLink, old(blogEntry.imageLink))
      ensures blogEntry.dateCreated == PatchDate(dateCreated, old(blogEntry.dateCreated))
      ensures blogEntry.author == old(blogEntry.author) && blogEntry.comments == old(blogEntry.comments)
    {
      if blogId > 0 { blogEntry.SetId(blogId); }
      if title != None { blogEntry.SetTitle(title); }
      if content != None { blogEntry.SetContent(content); }
      if imageLink != None { blogEntry.SetImageLink(imageLink); }
      if dateCreated != null { blogEntry.SetDateCreated(dateCreated); }
    }

    function EqualsReads(): set<object?>
      reads this
    {
      {this, author, dateCreated}
    }

    /** `BlogEntryDto.equals`: same author DTO, id, content, creation time, image link and title. */
    predicate Equals(other: BlogEntryDto?)
      reads this, author, dateCreated, other, if other != null then other.EqualsReads() else {}
    {
      other != null && UserDtosEqual(author, other.author) && blogId == other.blogId
      && content == other.content && DatesEqual(dateCreated, other.dateCreated)
      && imageLink == other.imageLink && title == other.title
    }

    ghost function HashCode(): int32
      reads this, author, dateCreated
    {
      var h1 := HashStep(EmptyLinksHash, UserDtoHash(author));
      var h2 := HashStep(h1, Int32Cast(blogId));
      var h3 := HashStep(h2, NullableStringHash(content));
      var h4 := HashStep(h3, DateHash(dateCreated));
      var h5 := HashStep(h4, NullableStringHash(imageLink));
      HashStep(h5, NullableStringHash(title))
    }
  }

  predicate BlogEntryDtosEqual(a: BlogEntryDto?, b: BlogEntryDto?)
    reads a, b, if a != null then a.EqualsReads() else {}, if b != null then b.EqualsReads() else {}
  {
    if a == null then b == null else a.Equals(b)
  }

  ghost function BlogEntryDtoHash(d: BlogEntryDto?): int32
    reads d, if d != null then d.EqualsReads() else {}
  {
    if d == null then 0 else d.HashCode()
  }

  lemma BlogEntryDtoEqualsContract(a: BlogEntryDto, b: BlogEntryDto, c: BlogEntryDto)
    ensures a.Equals(a) && !a.Equals(null)
    ensures a.Equals(b) == b.Equals(a)
    ensures a.Equals(b) && b.Equals(c) ==> a.Equals(c)
    ensures a.Equals(b) ==> a.HashCode() == b.HashCode()
  {
  }

  /** Applying the same DTO a second time changes none of the fields the first application set. */
  method OverwriteBlogEntryTwice(dto: BlogEntryDto, blogEntry: BlogEntry)
    modifies blogEntry
    ensures blogEntry.id == PatchId(dto.blogId, old(blogEntry.id))
    ensures blogEntry.title == Patch(dto.title, old(blogEntry.title))
    ensures blogEntry.content == Patch(dto.content, old(blogEntry.content))
    ensures blogEntry.imageLink == Patch(dto.imageLink, old(blogEntry.imageLink))
    ensures blogEntry.dateCreated == PatchDate(dto.dateCreated, old(blogEntry.dateCreated))
    ensures dto.author == null ==> blogEntry.author == old(blogEntry.author)
    ensures dto.author != null ==> blogEntry.author != null && fresh(blogEntry.author)
    ensures blogEntry.comments == old(blogEntry.comments)
  {
    var once := dto.OverwriteEntity(blogEntry);
    var twice := dto.OverwriteEntity(blogEntry);
  }

  /** A DTO fresh from its constructor leaves every field of the entity as it was. */
  method OverwriteBlogEntryWithEmptyDto(blogEntry: BlogEntry)
    modifies blogEntry
    ensures blogEntry.id == old(blogEntry.id) && blogEntry.title == old(blogEntry.title)
    ensures blogEntry.content == old(blogEntry.content) && blogEntry.imageLink == old(blogEntry.imageLink)
    ensures blogEntry.dateCreated == old(blogEntry.dateCreated) && blogEntry.author == old(blogEntry.author)
    ensures blogEntry.comments == old(blogEntry.comments)
  {
    var dto := new BlogEntryDto();
    var r := dto.OverwriteEntity(blogEntry);
  }

  class BlogCommentDto {
    var commentId: int
    var content: Option<string>
    var dateCreated: Date?
    var author: UserDto?
    var blogEntry: BlogEntryDto?

    constructor ()
      ensures commentId == 0 && content == None && dateCreated == null && author == null && blogEntry == null
    {
      commentId := 0;
      content := None;
      dateCreated := null;
      author := null;
      blogEntry := null;
    }

    method SetCommentId(commentId: int)
      modifies this`commentId
      ensures this.commentId == commentId
    {
      this.commentId := commentId;
    }

    method SetContent(content: Option<string>)
      modifies this`content
      ensures this.content == content
    {
      this.content := content;
    }

    method SetDateCreated(dateCreated: Date?)
      modifies this`dateCreated
      ensures this.dateCreated == dateCreated
    {
      this.dateCreated := dateCreated;
    }

    method SetAuthor(author: UserDto?)
      modifies this`author
      ensures this.author == author
    {
      this.author := author;
    }

    method SetBlogEntry(blogEntry: BlogEntryDto?)
      modifies this`blogEntry
      ensures this.blogEntry == blogEntry
    {
      this.blogEntry := blogEntry;
    }

    /**
     * Writes the non-null fields, and a positive id, onto `comment` and
     * returns that same object. The comment keeps a copy of the date; a
     * present author becomes a new `User` built by the author DTO; a present
     * blog entry becomes a new `BlogEntry` that the entry DTO has written
     * itself onto.
     */
    method OverwriteEntity(comment: BlogComment) returns (r: BlogComment)
      modifies comment
      ensures r == comment
      ensures comment.id == PatchId(commentId, old(comment.id))
      ensures comment.content == Patch(content, old(comment.content))
      ensures dateCreated == null ==> comment.dateCreated == old(comment.dateCreated)
      ensures dateCreated != null ==>
        comment.dateCreated != null && fresh(comment.dateCreated) && comment.dateCreated.time == dateCreated.time
      ensures author == null ==> comment.author == old(comment.author)
      ensures author != null ==> comment.author != null && fresh(comment.author)
      ensures blogEntry == null ==> comment.blogEntry == old(comment.blogEntry)
      ensures blogEntry != null ==> comment.blogEntry != null && fresh(comment.blogEntry)
      ensures blogEntry != null ==>
        var e := comment.blogEntry;
        e.id == PatchId(blogEntry.blogId, 0) && e.title == blogEntry.title && e.content == blogEntry.content
        && e.imageLink == blogEntry.imageLink && e.dateCreated == blogEntry.dateCreated && e.comments == []
        && (blogEntry.author == null <==> e.author == null)
    {
      if commentId > 0 { comment.SetId(commentId); }
      if content != None { comment.SetContent(content); }
      if dateCreated != null { comment.SetDateCreated(dateCreated); }
      if author != null {
        var user := new User();
        var built := author.OverwriteEntity(user);
        comment.SetAuthor(built);
      }
      if blogEntry != null {
        var entry := new BlogEntry();
        var built := blogEntry.OverwriteEntity(entry);
        comment.SetBlogEntry(built);
      }
      r := comment;
    }

    function EqualsReads(): set<object?>
      reads this, blogEntry
    {
      {this, author, dateCreated, blogEntry} + if blogEntry != null then blogEntry.EqualsReads() else {}
    }

    /** `BlogCommentDto.equals`: same author and entry DTOs, id, content and creation time. */
    predicate Equals(other: BlogCommentDto?)
      reads this, blogEntry, EqualsReads(), other
      reads if other != null then {other.blogEntry} + other.EqualsReads() else {}
    {
      other != null && UserDtosEqual(author, other.author) && BlogEntryDtosEqual(blogEntry, other.blogEntry)
      && commentId == other.commentId && content == other.content && DatesEqual(dateCreated, other.dateCreated)
    }

    ghost function HashCode(): int32
      reads this, blogEntry, EqualsReads()
    {
      var h1 := HashStep(EmptyLinksHash, UserDtoHash(author));
      var h2 := HashStep(h1, BlogEntryDtoHash(blogEntry));
      var h3 := HashStep(h2, Int32Cast(commentId));
      var h4 := HashStep(h3, NullableStringHash(content));
      HashStep(h4, DateHash(dateCreated))
    }
  }

  lemma BlogCommentDtoEqualsContract(a: BlogCommentDto, b: BlogCommentDto, c: BlogCommentDto)
    ensures a.Equals(a) && !a.Equals(null)
    ensures a.Equals(b) == b.Equals(a)
    ensures a.Equals(b) && b.Equals(c) ==> a.Equals(c)
    ensures a.Equals(b) ==> a.HashCode() == b.HashCode()
  {
  }

  class PhotoEntryDto {
    var photoEntryId: int
    var title: Option<string>
    var description: Option<string>
    var imageLink: Option<string>
    var isBackgroundImage: bool

    constructor ()
      ensures photoEntryId == 0 && title == None && description == None && imageLink == None
      ensures !isBackgroundImage
    {
      photoEntryId := 0;
      title := None;
      description := None;
      imageLink := None;
      isBackgroundImage := false;
    }

    method SetPhotoEntryId(photoEntryId: int)
      modifies this`photoEntryId
      ensures this.photoEntryId == photoEntryId
    {
      this.photoEntryId := photoEntryId;
    }

    method SetTitle(title: Option<string>)
      modifies this`title
      ensures this.title == title
    {
      this.title := title;
    }

    method SetDescription(description: Option<string>)
      modifies this`description
      ensures this.description == description
    {
      this.description := description;
    }

    method SetImageLink(imageLink: Option<string>)
      modifies this`imageLink
      ensures this.imageLink == imageLink
    {
      this.imageLink := imageLink;
    }

    method SetBackgroundImage(isBackgroundImage: bool)
      modifies this`isBackgroundImage
      ensures this.isBackgroundImage == isBackgroundImage
    {
      this.isBackgroundImage := isBackgroundImage;
    }

    /**
     * Writes the non-null strings, and a positive id, onto `photoEntry`; the
     * background flag, a primitive, is always written.
     */
    method OverwriteEntity(photoEntry: PhotoEntry) returns (r: PhotoEntry)
      modifies photoEntry
      ensures r == photoEntry
      ensures photoEntry.id == PatchId(photoEntryId, old(photoEntry.id))
      ensures photoEntry.title == Patch(title, old(photoEntry.title))
      ensures photoEntry.description == Patch(description, old(photoEntry.description))
      ensures photoEntry.imageLink == Patch(imageLink, old(photoEntry.imageLink))
      ensures photoEntry.isBackgroundImage == isBackgroundImage
    {
      if photoEntryId > 0 { photoEntry.SetId(photoEntryId); }
      if title != None { photoEntry.SetTitle(title); }
      if description != None { photoEntry.SetDescription(description); }
      if imageLink != None { photoEntry.SetImageLink(imageLink); }
      photoEntry.SetBackgroundImage(isBackgroundImage);
      r := photoEntry;
    }

    /** `PhotoEntryDto.equals`: same description, image link, background flag, id and title. */
    predicate Equals(other: PhotoEntryDto?)
      reads this, other
    {
      other != null && description == other.description && imageLink == other.imageLink
      && isBackgroundImage == other.isBackgroundImage && photoEntryId == other.photoEntryId
      && title == other.title
    }

    function HashCode(): int32
      reads this
    {
      var h1 := HashStep(EmptyLinksHash, NullableStringHash(description));
      var h2 := HashStep(h1, NullableStringHash(imageLink));
      var h3 := HashStep(h2, BoolHash(isBackgroundImage));
      var h4 := HashStep(h3, Int32Cast(photoEntryId));
      HashStep(h4, NullableStringHash(title))
    }
  }

  lemma PhotoEntryDtoEqualsContract(a: PhotoEntryDto, b: PhotoEntryDto, c: PhotoEntryDto)
    ensures a.Equals(a) && !a.Equals(null)
    ensures a.Equals(b) == b.Equals(a)
    ensures a.Equals(b) && b.Equals(c) ==> a.Equals(c)
    ensures a.Equals(b) ==> a.HashCode() == b.HashCode()
  {
  }

  /** The DTO's background flag always wins, even when it is `false` and the entry's is `true`. */
  method OverwriteClearsBackgroundFlag(photoEntry: PhotoEntry)
    modifies photoEntry
    ensures !photoEntry.isBackgroundImage
    ensures photoEntry.id == old(photoEntry.id) && photoEntry.title == old(photoEntry.title)
    ensures photoEntry.description == old(photoEntry.description)
    ensures photoEntry.imageLink == old(photoEntry.imageLink)
  {
    var dto := new PhotoEntryDto();
    var r := dto.OverwriteEntity(photoEntry);
  }

  class StaticContentDto {
    var staticContentId: int
    var contentDescription: Option<string>
    var language: Option<string>
    var content: Option<string>

    constructor ()
      ensures staticContentId == 0 && contentDescription == None && language == None && content == None
    {
      staticContentId := 0;
      contentDescription := None;
      language := None;
      content := None;
    }

    method SetStaticContentId(staticContentId: int)
      modifies this`staticContentId
      ensures this.staticContentId == staticContentId
    {
      this.staticContentId := staticContentId;
    }

    method SetContentDescription(contentDescription: Option<string>)
      modifies this`contentDescription
      ensures this.contentDescription == contentDescription
    {
      this.contentDescription := contentDescription;
    }

    method SetLanguage(language: Option<string>)
      modifies this`language
      ensures this.language == language
    {
      this.language := language;
    }

    method SetContent(content: Option<string>)
      modifies this`content
      ensures this.content == content
    {
      this.content := content;
    }

    /** Writes the non-null strings, and a positive id, onto `staticContent`. */
    method OverwriteEntity(staticContent: StaticContent) returns (r: StaticContent)
      modifies staticContent
      ensures r == staticContent
      ensures staticContent.id == PatchId(staticContentId, old(staticContent.id))
      ensures staticContent.contentDescription == Patch(contentDescription, old(staticContent.contentDescription))
      ensures staticContent.language == Patch(language, old(staticContent.language))
      ensures staticContent.content == Patch(content, old(staticContent.content))
    {
      if staticContentId > 0 { staticContent.SetId(staticContentId); }
      if contentDescription != None { staticContent.SetContentDescription(contentDescription); }
      if language != None { staticContent.SetLanguage(language); }
      if content != None { staticContent.SetContent(content); }
      r := staticContent;
    }

    /** `StaticContentDto.equals`: same content, description, language and id. */
    predicate Equals(other: StaticContentDto?)
      reads this, other
    {
      other != null && content == other.content && contentDescription == other.contentDescription
      && language == other.language && staticContentId == other.staticContentId
    }

    function HashCode(): int32
      reads this
    {
      var h1 := HashStep(1, NullableStringHash(content));
      var h2 := HashStep(h1, NullableStringHash(contentDescription));
      var h3 := HashStep(h2, NullableStringHash(language));
      HashStep(h3, Int32Cast(staticContentId))
    }
  }

  lemma StaticContentDtoEqualsContract(a: StaticContentDto, b: StaticContentDto, c: StaticContentDto)
    ensures a.Equals(a) && !a.Equals(null)
    ensures a.Equals(b) == b.Equals(a)
    ensures a.Equals(b) && b.Equals(c) ==> a.Equals(c)
    ensures a.Equals(b) ==> a.HashCode() == b.HashCode()
  {
  }

  class VideoEntryDto {
    var videoEntryId: int
    var title: Option<string>
    var description: Option<string>
    var youTubeLink: Option<string>

    constructor ()
      ensures videoEntryId == 0 && title == None && description == None && youTubeLink == None
    {
      videoEntryId := 0;
      title := None;
      description := None;
      youTubeLink := None;
    }

    method SetVideoEntryId(videoEntryId: int)
      modifies this`videoEntryId
      ensures this.videoEntryId == videoEntryId
    {
      this.videoEntryId := videoEntryId;
    }

    method SetTitle(title: Option<string>)
      modifies this`title
      ensures this.title == title
    {
      this.title := title;
    }

    method SetDescription(description: Option<string>)
      modifies this`description
      ensures this.description == description
    {
      this.description := description;
    }

    method SetYouTubeLink(youTubeLink: Option<string>)
      modifies this`youTubeLink
      ensures this.youTubeLink == youTubeLink
    {
      this.youTubeLink := youTubeLink;
    }

    /** `VideoEntryDto.equals`: same description, title, id and YouTube link. */
    predicate Equals(other: VideoEntryDto?)
      reads this, other
    {
      other != null && description == other.description && title == other.title
      && videoEntryId == other.videoEntryId && youTubeLink == other.youTubeLink
    }

    function HashCode(): int32
      reads this
    {
      var h1 := HashStep(1, NullableStringHash(description));
      var h2 := HashStep(h1, NullableStringHash(title));
      var h3 := HashStep(h2, Int32Cast(videoEntryId));
      HashStep(h3, NullableStringHash(youTubeLink))
    }
  }

  lemma VideoEntryDtoEqualsContract(a: VideoEntryDto, b: VideoEntryDto, c: VideoEntryDto)
    ensures a.Equals(a) && !a.Equals(null)
    ensures a.Equals(b) == b.Equals(a)
    ensures a.Equals(b) && b.Equals(c) ==> a.Equals(c)
    ensures a.Equals(b) ==> a.HashCode() == b.HashCode()
  {
  }

  /** Two video DTOs with the same strings but different ids are not equal. */
  lemma VideoEntryDtoEqualsSeesId(a: VideoEntryDto, b: VideoEntryDto)
    requires a.videoEntryId != b.videoEntryId
    ensures !a.Equals(b)
  {
  }
}
