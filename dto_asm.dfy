// The assemblers that turn an entity into the DTO the controllers send out.
// Each builds a new DTO and copies the entity's fields into it; none of them
// changes the entity (no assembler has a `modifies` clause, so Dafny holds it
// to leaving every existing object alone). The assemblers of the blog types
// call the user assembler for the author, which dereferences its argument,
// so a `null` author cannot be assembled.

module DtoAsm {
  import opened JavaLang
  import opened Models
  import opened Dto

  /** The role names a user DTO carries: `toString()` of each role. */
  function RoleNames(roles: set<UserRole>): set<string>
  {
    set r | r in roles :: RoleName(r)
  }

  /** Every role survives as its own name, and no two roles share one. */
  lemma RoleNamesExact(roles: set<UserRole>)
    ensures forall n :: n in RoleNames(roles) <==> exists r :: r in roles && RoleName(r) == n
    ensures forall r :: r in roles <==> RoleName(r) in RoleNames(roles)
    ensures |RoleNames(roles)| == |roles|
  {
    var names := RoleNames(roles);
    assert forall r | r in roles :: r == RoleUser || r == RoleAdmin;
    if RoleUser in roles && RoleAdmin in roles {
      assert roles == {RoleUser, RoleAdmin};
      assert names == {"ROLE_USER", "ROLE_ADMIN"};
    } else if RoleUser in roles {
      assert roles == {RoleUser};
      assert names == {"ROLE_USER"};
    } else if RoleAdmin in roles {
      assert roles == {RoleAdmin};
      assert names == {"ROLE_ADMIN"};
    } else {
      assert roles == {};
      assert names == {};
    }
  }

  method UserToResource(user: User) returns (dto: UserDto)
    ensures fresh(dto)
    ensures dto.userId == user.id && dto.username == user.username && dto.password == user.password
    ensures dto.email == user.email && dto.isBanned == user.isBanned
    ensures dto.roles == Some(RoleNames(user.roles))
  {
    dto := new UserDto();
    dto.SetUserId(user.id);
    dto.SetUsername(user.username);
    dto.SetPassword(user.password);
    dto.SetEmail(user.email);
    dto.SetBanned(user.isBanned);
    dto.SetRoles(Some(RoleNames(user.roles)));
  }

  /** The fields a DTO built from `user` holds. */
  predicate UserDtoOf(dto: UserDto, user: User)
    reads dto, user
  {
    dto.userId == user.id && dto.username == user.username && dto.password == user.password
    && dto.email == user.email && dto.isBanned == user.isBanned && dto.roles == Some(RoleNames(user.roles))
  }

  /** The entry's creation date object is handed to the DTO itself, not a copy. */
  method BlogEntryToResource(blogEntry: BlogEntry) returns (dto: BlogEntryDto)
    requires blogEntry.author != null
    ensures fresh(dto) && dto.author != null && fresh(dto.author) && UserDtoOf(dto.author, blogEntry.author)
    ensures dto.blogId == blogEntry.id && dto.content == blogEntry.content
    ensures dto.dateCreated == blogEntry.dateCreated && dto.imageLink == blogEntry.imageLink
    ensures dto.title == blogEntry.title
  {
    dto := new BlogEntryDto();
    var author := UserToResource(blogEntry.author);
    dto.SetAuthor(author);
    dto.SetBlogId(blogEntry.id);
    dto.SetContent(blogEntry.content);
    dto.SetDateCreated(blogEntry.dateCreated);
    dto.SetImageLink(blogEntry.imageLink);
    dto.SetTitle(blogEntry.title);
  }

  /** The comment's getter hands out a copy of its date, so the DTO holds a new `Date`. */
  method BlogCommentToResource(comment: BlogComment) returns (dto: BlogCommentDto)
    requires comment.author != null && comment.blogEntry != null && comment.blogEntry.author != null
    requires comment.dateCreated != null
    ensures fresh(dto) && dto.author != null && fresh(dto.author) && UserDtoOf(dto.author, comment.author)
    ensures dto.blogEntry != null && fresh(dto.blogEntry)
    ensures dto.blogEntry.blogId == comment.blogEntry.id && dto.blogEntry.title == comment.blogEntry.title
    ensures dto.blogEntry.content == comment.blogEntry.content
    ensures dto.blogEntry.imageLink == comment.blogEntry.imageLink
    ensures dto.blogEntry.dateCreated == comment.blogEntry.dateCreated
    ensures dto.blogEntry.author != null && UserDtoOf(dto.blogEntry.author, comment.blogEntry.author)
    ensures dto.content == comment.content && dto.commentId == comment.id
    ensures dto.dateCreated != null && fresh(dto.dateCreated) && dto.dateCreated.time == comment.dateCreated.time
  {
    dto := new BlogCommentDto();
    var author := UserToResource(comment.author);
    dto.SetAuthor(author);
    var entry := BlogEntryToResource(comment.blogEntry);
    dto.SetBlogEntry(entry);
    dto.SetContent(comment.content);
    var date := comment.GetDateCreated();
    dto.SetDateCreated(date);
    dto.SetCommentId(comment.id);
  }

  method PhotoEntryToResource(photoEntry: PhotoEntry) returns (dto: PhotoEntryDto)
    ensures fresh(dto)
    ensures dto.isBackgroundImage == photoEntry.isBackgroundImage && dto.description == photoEntry.description
    ensures dto.imageLink == photoEntry.imageLink && dto.photoEntryId == photoEntry.id
    ensures dto.title == photoEntry.title
  {
    dto := new PhotoEntryDto();
    dto.SetBackgroundImage(photoEntry.isBackgroundImage);
    dto.SetDescription(photoEntry.description);
    dto.SetImageLink(photoEntry.imageLink);
    dto.SetPhotoEntryId(photoEntry.id);
    dto.SetTitle(photoEntry.title);
  }

  method StaticContentToResource(staticContent: StaticContent) returns (dto: StaticContentDto)
    ensures fresh(dto)
    ensures dto.content == staticContent.content && dto.contentDescription == staticContent.contentDescription
    ensures dto.language == staticContent.language && dto.staticContentId == staticContent.id
  {
    dto := new StaticContentDto();
    dto.SetContent(staticContent.content);
    dto.SetContentDescription(staticContent.contentDescription);
    dto.SetLanguage(staticContent.language);
    dto.SetStaticContentId(staticContent.id);
  }

  method VideoEntryToResource(videoEntry: VideoEntry) returns (dto: VideoEntryDto)
    ensures fresh(dto)
    ensures dto.description == videoEntry.description && dto.title == videoEntry.title
    ensures dto.videoEntryId == videoEntry.id && dto.youTubeLink == videoEntry.youTubeLink
  {
    dto := new VideoEntryDto();
    dto.SetDescription(videoEntry.description);
    dto.SetTitle(videoEntry.title);
    dto.SetVideoEntryId(videoEntry.id);
    dto.SetYouTubeLink(videoEntry.youTubeLink);
  }

  /**
   * Sending an entry out and writing the DTO back onto a new entry restores
   * its title, content, image link and creation date, and its id when the id
   * is positive. The author comes back as a new `User` object.
   */
  method BlogEntryRoundTrip(blogEntry: BlogEntry) returns (copy: BlogEntry)
    requires blogEntry.author != null
    ensures copy.id == PatchId(blogEntry.id, 0)
    ensures copy.title == blogEntry.title && copy.content == blogEntry.content
    ensures copy.imageLink == blogEntry.imageLink && copy.dateCreated == blogEntry.dateCreated
    ensures copy.author != null && copy.author != blogEntry.author && copy.comments == []
  {
    var dto := BlogEntryToResource(blogEntry);
    var target := new BlogEntry();
    copy := dto.OverwriteEntity(target);
  }

  /** The same round trip for a comment, whose date comes back as a distinct but equal `Date`. */
  method BlogCommentRoundTrip(comment: BlogComment) returns (copy: BlogComment)
    requires comment.author != null && comment.blogEntry != null && comment.blogEntry.author != null
    requires comment.dateCreated != null
    ensures copy.id == PatchId(comment.id, 0) && copy.content == comment.content
    ensures copy.dateCreated != null && copy.dateCreated != comment.dateCreated
    ensures copy.dateCreated.time == comment.dateCreated.time
    ensures copy.author != null && copy.blogEntry != null && copy.blogEntry != comment.blogEntry
    ensures copy.blogEntry.id == PatchId(comment.blogEntry.id, 0)
    ensures copy.blogEntry.title == comment.blogEntry.title
    ensures copy.blogEntry.content == comment.blogEntry.content
    ensures copy.blogEntry.imageLink == comment.blogEntry.imageLink
    ensures copy.blogEntry.dateCreated == comment.blogEntry.dateCreated
  {
    var dto := BlogCommentToResource(comment);
    var target := new BlogComment();
    copy := dto.OverwriteEntity(target);
  }

  /**
   * A photo entry survives the round trip up to `PhotoEntry.equals` when its
   * description and image link are set; a `null` one comes back as the new
   * entry's default `""`.
   */
  method PhotoEntryRoundTrip(photoEntry: PhotoEntry) returns (copy: PhotoEntry)
    ensures copy.id == PatchId(photoEntry.id, 0) && copy.title == photoEntry.title
    ensures copy.isBackgroundImage == photoEntry.isBackgroundImage
    ensures copy.description == Patch(photoEntry.description, Some(""))
    ensures copy.imageLink == Patch(photoEntry.imageLink, Some(""))
    ensures photoEntry.description.Some? && photoEntry.imageLink.Some? ==> copy.Equals(photoEntry)
  {
    var dto := PhotoEntryToResource(photoEntry);
    var target := new PhotoEntry();
    copy := dto.OverwriteEntity(target);
  }

  /** A static text survives the round trip up to `StaticContent.equals` when its language is set. */
  method StaticContentRoundTrip(staticContent: StaticContent) returns (copy: StaticContent)
    ensures copy.id == PatchId(staticContent.id, 0)
    ensures copy.contentDescription == staticContent.contentDescription
    ensures copy.content == staticContent.content
    ensures copy.language == Patch(staticContent.language, Some("RU"))
    ensures staticContent.language.Some? ==> copy.Equals(staticContent)
  {
    var dto := StaticContentToResource(staticContent);
    var target := new StaticContent();
    copy := dto.OverwriteEntity(target);
  }

  /** Video entries that are equal and share an id give equal DTOs. */
  method EqualVideoEntriesGiveEqualDtos(a: VideoEntry, b: VideoEntry) returns (da: VideoEntryDto, db: VideoEntryDto)
    requires a.Equals(b) && a.id == b.id
    ensures da.Equals(db) && da.HashCode() == db.HashCode()
  {
    da := VideoEntryToResource(a);
    db := VideoEntryToResource(b);
  }

  /** The DTO of a new video entry has an empty description and link, no title and id 0. */
  method NewVideoEntryDto() returns (dto: VideoEntryDto)
    ensures dto.description == Some("") && dto.youTubeLink == Some("")
    ensures dto.title == None && dto.videoEntryId == 0
  {
    var entry := new VideoEntry();
    dto := VideoEntryToResource(entry);
  }

  /** Photo entries that are equal and share an id give equal DTOs. */
  method EqualPhotoEntriesGiveEqualDtos(a: PhotoEntry, b: PhotoEntry) returns (da: PhotoEntryDto, db: PhotoEntryDto)
    requires a.Equals(b) && a.id == b.id
    ensures da.Equals(db) && da.HashCode() == db.HashCode()
  {
    da := PhotoEntryToResource(a);
    db := PhotoEntryToResource(b);
  }

  /** Equal static texts sharing an id give equal DTOs. */
  method EqualStaticContentsGiveEqualDtos(a: StaticContent, b: StaticContent)
    returns (da: StaticContentDto, db: StaticContentDto)
    requires a.Equals(b) && a.id == b.id
    ensures da.Equals(db) && da.HashCode() == db.HashCode()
  {
    da := StaticContentToResource(a);
    db := StaticContentToResource(b);
  }
}
