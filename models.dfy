// The persistent entities of the blog: users, blog entries and their
// comments, photo entries, static page texts and video entries. Each is a
// mutable object whose setters assign one field, with an `equals` over its
// business fields (never its id) and a `hashCode` built from the same fields.
// The id belongs to the entities' common superclass, which is not part of
// this model; it is an `int` that stays 0 until the store assigns one.

module Models {
  import opened JavaLang

  /** The two roles the code refers to; a user's authorities are its roles. */
  datatype UserRole = RoleUser | RoleAdmin

  /** `UserRole.toString()`: the enum constant's name. */
  function RoleName(r: UserRole): string
  {
    match r
    case RoleUser => "ROLE_USER"
    case RoleAdmin => "ROLE_ADMIN"
  }

  lemma RoleNameInjective(a: UserRole, b: UserRole)
    ensures RoleName(a) == RoleName(b) <==> a == b
  {
  }

  /** A character of the class `[a-zA-Z0-9_]`. */
  predicate IsUsernameChar(c: char)
  {
    ('a' <= c <= 'z') || ('A' <= c <= 'Z') || ('0' <= c <= '9') || c == '_'
  }

  /** The pattern `^[a-zA-Z0-9_]+$`, read as: one username character, then the rest of the match. */
  predicate MatchesUsernamePattern(s: string)
    decreases |s|
  {
    |s| >= 1 && IsUsernameChar(s[0]) && (|s| == 1 || MatchesUsernamePattern(s[1..]))
  }

  /** The bean-validation constraints on `username`: size 3 to 20 and the pattern; `null` passes both. */
  predicate UsernameConstraintsHold(username: Option<string>)
  {
    match username
    case None => true
    case Some(s) => 3 <= |s| <= 20 && MatchesUsernamePattern(s)
  }

  lemma {:induction false} UsernamePatternIsCharacterClass(s: string)
    ensures MatchesUsernamePattern(s) <==> |s| >= 1 && forall i :: 0 <= i < |s| ==> IsUsernameChar(s[i])
    decreases |s|
  {
    if |s| > 1 {
      UsernamePatternIsCharacterClass(s[1..]);
      assert forall i :: 1 <= i < |s| ==> s[i] == s[1..][i - 1];
    }
  }

  lemma UsernameConstraints(s: string)
    ensures UsernameConstraintsHold(Some(s)) <==>
      3 <= |s| <= 20 && forall i :: 0 <= i < |s| ==> IsUsernameChar(s[i])
  {
    UsernamePatternIsCharacterClass(s);
  }

  class User {
    var id: int
    var username: Option<string>
    var password: Option<string>
    var email: Option<string>
    var roles: set<UserRole>
    var isBanned: bool
    var imageLink: Option<string>
    var imageFile: Option<seq<bv8>>
    var blogs: set<BlogEntry>
    var comments: set<BlogComment>

    constructor ()
      ensures id == 0 && username == None && password == Some("") && email == Some("")
      ensures roles == {} && !isBanned && imageLink == None && imageFile == None
      ensures blogs == {} && comments == {}
    {
      id := 0;
      username := None;
      password := Some("");
      email := Some("");
      roles := {};
      isBanned := false;
      imageLink := None;
      imageFile := None;
      blogs := {};
      comments := {};
    }

    constructor WithUsername(username: Option<string>)
      ensures id == 0 && this.username == username && password == Some("") && email == Some("")
      ensures roles == {} && !isBanned && imageLink == None && imageFile == None
      ensures blogs == {} && comments == {}
    {
      id := 0;
      this.username := username;
      password := Some("");
      email := Some("");
      roles := {};
      isBanned := false;
      imageLink := None;
      imageFile := None;
      blogs := {};
      comments := {};
    }

    method SetUsername(username: Option<string>)
      modifies this`username
      ensures this.username == username
    {
      this.username := username;
    }

    method SetPassword(password: Option<string>)
      modifies this`password
      ensures this.password == password
    {
      this.password := password;
    }

    method SetEmail(email: Option<string>)
      modifies this`email
      ensures this.email == email
    {
      this.email := email;
    }

    method SetRoles(roles: set<UserRole>)
      modifies this`roles
      ensures this.roles == roles
    {
      this.roles := roles;
    }

    method SetBanned(isBanned: bool)
      modifies this`isBanned
      ensures this.isBanned == isBanned
    {
      this.isBanned := isBanned;
    }

    method SetImageLink(imageLink: Option<string>)
      modifies this`imageLink
      ensures this.imageLink == imageLink
    {
      this.imageLink := imageLink;
    }

    method SetImageFile(imageFile: Option<seq<bv8>>)
      modifies this`imageFile
      ensures this.imageFile == imageFile
    {
      this.imageFile := imageFile;
    }

    method SetBlogs(blogs: set<BlogEntry>)
      modifies this`blogs
      ensures this.blogs == blogs
    {
      this.blogs := blogs;
    }

    method SetComments(comments: set<BlogComment>)
      modifies this`comments
      ensures this.comments == comments
    {
      this.comments := comments;
    }

    /** The granted authorities are the roles: the very set, not a copy or a subset. */
    function GetAuthorities(): (r: set<UserRole>)
      reads this
      ensures r == roles
    {
      roles
    }

    // The four account-status answers of the security layer all follow the ban flag.
    predicate IsAccountNonExpired() reads this { !isBanned }
    predicate IsAccountNonLocked() reads this { !isBanned }
    predicate IsCredentialsNonExpired() reads this { !isBanned }
    predicate IsEnabled() reads this { !isBanned }

    /** `User.equals`: same email, password and username. */
    predicate Equals(other: User?)
      reads this, other
    {
      other != null && email == other.email && password == other.password && username == other.username
    }

    function HashCode(): int32
      reads this
    {
      HashStep(HashStep(HashStep(1, NullableStringHash(email)), NullableStringHash(password)),
               NullableStringHash(username))
    }
  }

  lemma AccountStatusFollowsBan(u: User)
    ensures u.IsAccountNonExpired() <==> !u.isBanned
    ensures u.IsAccountNonLocked() <==> !u.isBanned
    ensures u.IsCredentialsNonExpired() <==> !u.isBanned
    ensures u.IsEnabled() <==> !u.isBanned
  {
  }

  /** The null-safe `a == null ? b == null : a.equals(b)` of a generated `equals`. */
  predicate UsersEqual(a: User?, b: User?)
    reads a, b
  {
    if a == null then b == null else a.Equals(b)
  }

  function UserHash(u: User?): int32
    reads u
  {
    if u == null then 0 else u.HashCode()
  }

  lemma UserEqualsContract(a: User, b: User, c: User)
    ensures a.Equals(a) && !a.Equals(null)
    ensures a.Equals(b) == b.Equals(a)
    ensures a.Equals(b) && b.Equals(c) ==> a.Equals(c)
    ensures a.Equals(b) ==> a.HashCode() == b.HashCode()
  {
  }

  /** Users that differ only in id, roles, ban flag, images, blogs or comments are equal. */
  lemma UserEqualsIgnoresNonKeyFields(a: User, b: User)
    requires a.email == b.email && a.password == b.password && a.username == b.username
    ensures a.Equals(b) && a.HashCode() == b.HashCode()
  {
  }

  class BlogEntry {
    var id: int
    var title: Option<string>
    var content: Option<string>
    var imageLink: Option<string>
    var dateCreated: Date?
    var author: User?
    var comments: seq<BlogComment>

    constructor ()
      ensures id == 0 && title == None && content == None && imageLink == None
      ensures dateCreated == null && author == null && comments == []
    {
      id := 0;
      title := None;
      content := None;
      imageLink := None;
      dateCreated := null;
      author := null;
      comments := [];
    }

    constructor WithTitle(title: Option<string>)
      ensures id == 0 && this.title == title && content == None && imageLink == None
      ensures dateCreated == null && author == null && comments == []
    {
      id := 0;
      this.title := title;
      content := None;
      imageLink := None;
      dateCreated := null;
      author := null;
      comments := [];
    }

    method SetId(id: int)
      modifies this`id
      ensures this.id == id
    {
      this.id := id;
    }

    method SetTitle(title: Option<string>)
      modifies this`title
      ensures this.title == title
    {
      this.title := title;
    }

    method SetContent(content: Option<string>)
      modifies this`content
      ensures this.content == content
    {
      this.content := content;
    }

    method SetImageLink(imageLink: Option<string>)
      modifies this`imageLink
      ensures this.imageLink == imageLink
    {
      this.imageLink := imageLink;
    }

    /** Stores the caller's `Date` object itself: no copy is made. */
    method SetDateCreated(dateCreated: Date?)
      modifies this`dateCreated
      ensures this.dateCreated == dateCreated
    {
      this.dateCreated := dateCreated;
    }

    method SetAuthor(author: User?)
      modifies this`author
      ensures this.author == author
    {
      this.author := author;
    }

    method SetComments(comments: seq<BlogComment>)
      modifies this`comments
      ensures this.comments == comments
    {
      this.comments := comments;
    }

    /** The objects `Equals` and `HashCode` look at on this side. */
    function EqualsReads(): set<object?>
      reads this
    {
      {this, author, dateCreated}
    }

    /** `BlogEntry.equals`: same author (by `User.equals`), content, creation time, image link and title. */
    predicate Equals(other: BlogEntry?)
      reads this, author, dateCreated, other, if other != null then other.EqualsReads() else {}
    {
      other != null && UsersEqual(author, other.author) && content == other.content
      && DatesEqual(dateCreated, other.dateCreated) && imageLink == other.imageLink && title == other.title
    }

    function HashCode(): int32
      reads this, author, dateCreated
    {
      var h1 := HashStep(1, UserHash(author));
      var h2 := HashStep(h1, NullableStringHash(content));
      var h3 := HashStep(h2, DateHash(dateCreated));
      var h4 := HashStep(h3, NullableStringHash(imageLink));
      HashStep(h4, NullableStringHash(title))
    }
  }

  predicate BlogEntriesEqual(a: BlogEntry?, b: BlogEntry?)
    reads a, b, if a != null then a.EqualsReads() else {}, if b != null then b.EqualsReads() else {}
  {
    if a == null then b == null else a.Equals(b)
  }

  function BlogEntryHash(e: BlogEntry?): int32
    reads e, if e != null then e.EqualsReads() else {}
  {
    if e == null then 0 else e.HashCode()
  }

  lemma BlogEntryEqualsContract(a: BlogEntry, b: BlogEntry, c: BlogEntry)
    ensures a.Equals(a) && !a.Equals(null)
    ensures a.Equals(b) == b.Equals(a)
    ensures a.Equals(b) && b.Equals(c) ==> a.Equals(c)
    ensures a.Equals(b) ==> a.HashCode() == b.HashCode()
  {
  }

  /** Entries that differ only in id and comment list are equal and hash alike. */
  lemma BlogEntryEqualsIgnoresIdAndComments(a: BlogEntry, b: BlogEntry)
    requires a.author == b.author && a.content == b.content && a.dateCreated == b.dateCreated
    requires a.imageLink == b.imageLink && a.title == b.title
    ensures a.Equals(b) && a.HashCode() == b.HashCode()
  {
  }

  class BlogComment {
    var id: int
    var content: Option<string>
    var dateCreated: Date?
    var author: User?
    var blogEntry: BlogEntry?

    constructor ()
      ensures id == 0 && content == None && dateCreated == null && author == null && blogEntry == null
    {
      id := 0;
      content := None;
      dateCreated := null;
      author := null;
      blogEntry := null;
    }

    constructor WithContent(content: Option<string>)
      ensures id == 0 && this.content == content && dateCreated == null && author == null && blogEntry == null
    {
      id := 0;
      this.content := content;
      dateCreated := null;
      author := null;
      blogEntry := null;
    }

    method SetId(id: int)
      modifies this`id
      ensures this.id == id
    {
      this.id := id;
    }

    method SetContent(content: Option<string>)
      modifies this`content
      ensures this.content == content
    {
      this.content := content;
    }

    /** Hands out a copy of the creation date; a `null` date throws, so the caller must not ask then. */
    method GetDateCreated() returns (d: Date)
      requires dateCreated != null
      ensures fresh(d) && d.time == dateCreated.time
    {
      d := new Date(dateCreated.time);
    }

    /** Keeps a copy of the caller's date, never the caller's object. */
    method SetDateCreated(dateCreated: Date)
      modifies this`dateCreated
      ensures this.dateCreated != null && fresh(this.dateCreated)
      ensures this.dateCreated.time == dateCreated.time
    {
      this.dateCreated := new Date(dateCreated.time);
    }

    method SetAuthor(author: User?)
      modifies this`author
      ensures this.author == author
    {
      this.author := author;
    }

    method SetBlogEntry(blogEntry: BlogEntry?)
      modifies this`blogEntry
      ensures this.blogEntry == blogEntry
    {
      this.blogEntry := blogEntry;
    }

    function EqualsReads(): set<object?>
      reads this, blogEntry
    {
      {this, author, dateCreated, blogEntry} + if blogEntry != null then blogEntry.EqualsReads() else {}
    }

    /** `BlogComment.equals`: same author, blog entry (by their `equals`), content and creation time. */
    predicate Equals(other: BlogComment?)
      reads this, blogEntry, EqualsReads(), other
      reads if other != null then {other.blogEntry} + other.EqualsReads() else {}
    {
      other != null && UsersEqual(author, other.author) && BlogEntriesEqual(blogEntry, other.blogEntry)
      && content == other.content && DatesEqual(dateCreated, other.dateCreated)
    }

    function HashCode(): int32
      reads this, blogEntry, EqualsReads()
    {
      var h1 := HashStep(1, UserHash(author));
      var h2 := HashStep(h1, BlogEntryHash(blogEntry));
      var h3 := HashStep(h2, NullableStringHash(content));
      HashStep(h3, DateHash(dateCreated))
    }
  }

  lemma BlogCommentEqualsContract(a: BlogComment, b: BlogComment, c: BlogComment)
    ensures a.Equals(a) && !a.Equals(null)
    ensures a.Equals(b) == b.Equals(a)
    ensures a.Equals(b) && b.Equals(c) ==> a.Equals(c)
    ensures a.Equals(b) ==> a.HashCode() == b.HashCode()
  {
  }

  /** Comments with the same author, entry, content and date object are equal whatever their ids. */
  lemma BlogCommentEqualsIgnoresId(a: BlogComment, b: BlogComment)
    requires a.author == b.author && a.blogEntry == b.blogEntry && a.content == b.content
    requires a.dateCreated == b.dateCreated
    ensures a.Equals(b) && a.HashCode() == b.HashCode()
  {
  }

  /** Storing a date and then changing the caller's `Date` object leaves the comment's date alone. */
  method SetDateThenMutateCaller(c: BlogComment, d: Date, later: int64)
    modifies c, d
    ensures c.dateCreated != null && c.dateCreated.time == old(d.time)
    ensures d.time == later
  {
    c.SetDateCreated(d);
    d.SetTime(later);
  }

  /** Changing a date handed out by the getter leaves the comment's date alone. */
  method MutateHandedOutDate(c: BlogComment, later: int64) returns (d: Date)
    requires c.dateCreated != null
    ensures c.dateCreated == old(c.dateCreated) && c.dateCreated.time == old(c.dateCreated.time)
    ensures d.time == later
  {
    d := c.GetDateCreated();
    d.SetTime(later);
  }

  class PhotoEntry {
    var id: int
    var title: Option<string>
    var description: Option<string>
    var imageLink: Option<string>
    var isBackgroundImage: bool

    constructor ()
      ensures id == 0 && title == None && description == Some("") && imageLink == Some("") && !isBackgroundImage
    {
      id := 0;
      title := None;
      description := Some("");
      imageLink := Some("");
      isBackgroundImage := false;
    }

    constructor WithTitle(title: Option<string>)
      ensures id == 0 && this.title == title && description == Some("") && imageLink == Some("")
      ensures !isBackgroundImage
    {
      id := 0;
      this.title := title;
      description := Some("");
      imageLink := Some("");
      isBackgroundImage := false;
    }

    method SetId(id: int)
      modifies this`id
      ensures this.id == id
    {
      this.id := id;
    }

    method SetTitle(title: Option<string>)
      modifies this`title
      ensures this.title == title
    {
      this.title := title;
    }

    method SetDescription(description: Option<string>)
      modifies this`description
      ensures this.description == description
    {
      this.description := description;
    }

    method SetImageLink(imageLink: Option<string>)
      modifies this`imageLink
      ensures this.imageLink == imageLink
    {
      this.imageLink := imageLink;
    }

    method SetBackgroundImage(isBackgroundImage: bool)
      modifies this`isBackgroundImage
      ensures this.isBackgroundImage == isBackgroundImage
    {
      this.isBackgroundImage := isBackgroundImage;
    }

    /** `PhotoEntry.equals`: same description, image link, background flag and title. */
    predicate Equals(other: PhotoEntry?)
      reads this, other
    {
      other != null && description == other.description && imageLink == other.imageLink
      && isBackgroundImage == other.isBackgroundImage && title == other.title
    }

    function HashCode(): int32
      reads this
    {
      var h1 := HashStep(1, NullableStringHash(description));
      var h2 := HashStep(h1, NullableStringHash(imageLink));
      var h3 := HashStep(h2, BoolHash(isBackgroundImage));
      HashStep(h3, NullableStringHash(title))
    }
  }

  lemma PhotoEntryEqualsContract(a: PhotoEntry, b: PhotoEntry, c: PhotoEntry)
    ensures a.Equals(a) && !a.Equals(null)
    ensures a.Equals(b) == b.Equals(a)
    ensures a.Equals(b) && b.Equals(c) ==> a.Equals(c)
    ensures a.Equals(b) ==> a.HashCode() == b.HashCode()
  {
  }

  /** Entries with the same description, image link, flag and title are equal whatever their ids. */
  lemma PhotoEntryEqualsIgnoresId(a: PhotoEntry, b: PhotoEntry)
    requires a.description == b.description && a.imageLink == b.imageLink
    requires a.isBackgroundImage == b.isBackgroundImage && a.title == b.title
    ensures a.Equals(b) && a.HashCode() == b.HashCode()
  {
  }

  /** The background flag takes part in equality: flipping it alone makes two entries unequal. */
  lemma PhotoEntryBackgroundFlagMatters(a: PhotoEntry, b: PhotoEntry)
    requires a.isBackgroundImage != b.isBackgroundImage
    ensures !a.Equals(b)
  {
  }

  class StaticContent {
    var id: int
    var contentDescription: Option<string>
    var language: Option<string>
    var content: Option<string>

    constructor ()
      ensures id == 0 && contentDescription == None && language == Some("RU") && content == None
    {
      id := 0;
      contentDescription := None;
      language := Some("RU");
      content := None;
    }

    /** Uses the text both as the description and as the content. */
    constructor WithContent(content: Option<string>)
      ensures id == 0 && contentDescription == content && language == Some("RU") && this.content == content
    {
      id := 0;
      contentDescription := content;
      language := Some("RU");
      this.content := content;
    }

    method SetId(id: int)
      modifies this`id
      ensures this.id == id
    {
      this.id := id;
    }

    method SetContentDescription(contentDescription: Option<string>)
      modifies this`contentDescription
      ensures this.contentDescription == contentDescription
    {
      this.contentDescription := contentDescription;
    }

    method SetLanguage(language: Option<string>)
      modifies this`language
      ensures this.language == language
    {
      this.language := language;
    }

    method SetContent(content: Option<string>)
      modifies this`content
      ensures this.content == content
    {
      this.content := content;
    }

    /** `StaticContent.equals`: same content, description and language. */
    predicate Equals(other: StaticContent?)
      reads this, other
    {
      other != null && content == other.content && contentDescription == other.contentDescription
      && language == other.language
    }

    function HashCode(): int32
      reads this
    {
      var h1 := HashStep(1, NullableStringHash(content));
      var h2 := HashStep(h1, NullableStringHash(contentDescription));
      HashStep(h2, NullableStringHash(language))
    }
  }

  lemma StaticContentEqualsContract(a: StaticContent, b: StaticContent, c: StaticContent)
    ensures a.Equals(a) && !a.Equals(null)
    ensures a.Equals(b) == b.Equals(a)
    ensures a.Equals(b) && b.Equals(c) ==> a.Equals(c)
    ensures a.Equals(b) ==> a.HashCode() == b.HashCode()
  {
  }

  /** Texts with the same content, description and language are equal whatever their ids. */
  lemma StaticContentEqualsIgnoresId(a: StaticContent, b: StaticContent)
    requires a.content == b.content && a.contentDescription == b.contentDescription && a.language == b.language
    ensures a.Equals(b) && a.HashCode() == b.HashCode()
  {
  }

  class VideoEntry {
    var id: int
    var title: Option<string>
    var description: Option<string>
    var youTubeLink: Option<string>

    constructor ()
      ensures id == 0 && title == None && description == Some("") && youTubeLink == Some("")
    {
      id := 0;
      title := None;
      description := Some("");
      youTubeLink := Some("");
    }

    constructor WithTitle(title: Option<string>)
      ensures id == 0 && this.title == title && description == Some("") && youTubeLink == Some("")
    {
      id := 0;
      this.title := title;
      description := Some("");
      youTubeLink := Some("");
    }

    method SetTitle(title: Option<string>)
      modifies this`title
      ensures this.title == title
    {
      this.title := title;
    }

    method SetDescription(description: Option<string>)
      modifies this`description
      ensures this.description == description
    {
      this.description := description;
    }

    method SetYouTubeLink(youTubeLink: Option<string>)
      modifies this`youTubeLink
      ensures this.youTubeLink == youTubeLink
    {
      this.youTubeLink := youTubeLink;
    }

    /** `VideoEntry.equals`: same description, title and YouTube link. */
    predicate Equals(other: VideoEntry?)
      reads this, other
    {
      other != null && description == other.description && title == other.title
      && youTubeLink == other.youTubeLink
    }

    function HashCode(): int32
      reads this
    {
      var h1 := HashStep(1, NullableStringHash(description));
      var h2 := HashStep(h1, NullableStringHash(title));
      HashStep(h2, NullableStringHash(youTubeLink))
    }
  }

  lemma VideoEntryEqualsContract(a: VideoEntry, b: VideoEntry, c: VideoEntry)
    ensures a.Equals(a) && !a.Equals(null)
    ensures a.Equals(b) == b.Equals(a)
    ensures a.Equals(b) && b.Equals(c) ==> a.Equals(c)
    ensures a.Equals(b) ==> a.HashCode() == b.HashCode()
  {
  }

  /** Entries with the same description, title and link are equal whatever their ids. */
  lemma VideoEntryEqualsIgnoresId(a: VideoEntry, b: VideoEntry)
    requires a.description == b.description && a.title == b.title && a.youTubeLink == b.youTubeLink
    ensures a.Equals(b) && a.HashCode() == b.HashCode()
  {
  }
}
