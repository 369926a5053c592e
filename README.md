# tkage blog backend in Dafny

A model of the core of the tkage blog backend, a Spring/JPA application
serving blog entries, their comments, photo and video entries, static page
texts and users over REST. The model covers the layers that hold logic:

- `java_lang.dfy` (module `JavaLang`): the Java platform pieces the code
  leans on. `Option` stands for a nullable reference. `int32` stands for a
  Java `int`, with the narrowing cast written out. The string, boolean and
  `long` hash codes are here too, and so is a mutable `Date` holding a
  millisecond time.
- `models.dfy` (module `Models`): the persistent entities as classes whose
  setters assign one field. It covers their defaults, the `equals` and
  `hashCode` pairs, the user account flags that follow the ban flag, the
  username constraint, and the copies a comment makes of its creation date.
- `dto.dfy` (module `Dto`): the transfer objects and their
  `overwriteEntity`, which writes only non-null fields and only a positive
  id onto an entity.
- `dto_asm.dfy` (module `DtoAsm`): the assemblers that copy an entity into
  a fresh DTO. It also holds the round trips through a DTO and back.
- `dao.dfy` (module `Dao`): the data-access objects. The JPA entity manager
  becomes one in-memory table per entity type, a map from id to row plus
  the next id to hand out. The queries and pagination are functions over
  that table.
- `services.dfy` (module `Services`): the services. They validate the
  arguments, make one DAO call, and map its outcome onto the value or one
  of four service exceptions. Whether the storage layer fails during a call
  is outside the program, so every service member takes it as a parameter,
  `fault`.
- `exceptions.dfy` (module `Exceptions`): the controllers' exception
  handler. It maps each exception type to an HTTP status, walks the cause
  chain to the root cause, and builds the JSON error body.

Java `null` is `None` for strings and DAO answers, and a `null` reference
for objects. A service exception is the `Err` case of `Result`. Source paths
below are relative to the repository root.

## Model

| member | source | states |
|---|---|---|
| JavaLang.Int32Cast | src/main/java/tk/serjmusic/dao/impl/AbstractGenericDao.java:160 | narrowing to `int` keeps every value that fits; otherwise it gives the one `int` congruent to the value modulo 2^32 |
| JavaLang.Date.constructor | src/main/java/tk/serjmusic/models/BlogComment.java:98 | a new date holds exactly the time it was built from |
| JavaLang.Date.SetTime | src/main/java/tk/serjmusic/models/BlogComment.java:106-108 | a caller changing a date object changes only that object's time |
| Models.RoleNameInjective | src/main/java/tk/serjmusic/controllers/dto/asm/UserDtoAsm.java:66-67 | two roles have the same name exactly when they are the same role |
| Models.UsernamePatternIsCharacterClass | src/main/java/tk/serjmusic/models/User.java:69-70 | a string matches `^[a-zA-Z0-9_]+$` exactly when it is non-empty and every character is an ASCII letter, digit or underscore |
| Models.UsernameConstraints | src/main/java/tk/serjmusic/models/User.java:68-70 | a present username passes bean validation exactly when it has 3 to 20 characters, all of them ASCII letters, digits or underscores |
| Models.User.constructor | src/main/java/tk/serjmusic/models/User.java:71-105 | a new user has id 0, no username, empty password and email, no roles, blogs or comments, no image, and is not banned |
| Models.User.WithUsername | src/main/java/tk/serjmusic/models/User.java:107-110 | `User(username)` sets the username and leaves every other field at its default |
| Models.User.SetUsername | src/main/java/tk/serjmusic/models/User.java:227-229 | assigns the username and changes no other field |
| Models.User.SetPassword | src/main/java/tk/serjmusic/models/User.java:236-238 | assigns the password and changes no other field |
| Models.User.SetEmail | src/main/java/tk/serjmusic/models/User.java:182-184 | assigns the email and changes no other field |
| Models.User.SetRoles | src/main/java/tk/serjmusic/models/User.java:200-202 | assigns the role set and changes no other field |
| Models.User.SetBanned | src/main/java/tk/serjmusic/models/User.java:218-220 | assigns the ban flag and changes no other field |
| Models.User.SetImageLink | src/main/java/tk/serjmusic/models/User.java:291-293 | assigns the image link and changes no other field |
| Models.User.SetImageFile | src/main/java/tk/serjmusic/models/User.java:309-311 | assigns the image bytes and changes no other field |
| Models.User.SetBlogs | src/main/java/tk/serjmusic/models/User.java:254-256 | assigns the blog set and changes no other field |
| Models.User.SetComments | src/main/java/tk/serjmusic/models/User.java:272-274 | assigns the comment set and changes no other field |
| Models.User.GetAuthorities | src/main/java/tk/serjmusic/models/User.java:116-118 | the granted authorities are exactly the user's role set |
| Models.AccountStatusFollowsBan | src/main/java/tk/serjmusic/models/User.java:140-166 | the account is non-expired, non-locked, has non-expired credentials and is enabled, each exactly when the user is not banned |
| Models.UserEqualsContract | src/main/java/tk/serjmusic/models/User.java:317-363 | `User.equals` is reflexive, false for `null`, symmetric and transitive, and equal users have equal hash codes |
| Models.UserEqualsIgnoresNonKeyFields | src/main/java/tk/serjmusic/models/User.java:317-363 | users that agree on email, password and username are equal and hash alike, whatever their id, roles, ban flag, image and collections |
| Models.BlogEntry.constructor | src/main/java/tk/serjmusic/models/BlogEntry.java:58-80 | a new entry has id 0, no strings, no date, no author and an empty comment list |
| Models.BlogEntry.WithTitle | src/main/java/tk/serjmusic/models/BlogEntry.java:82-84 | `BlogEntry(title)` sets the title and leaves every other field at its default |
| Models.BlogEntry.SetId | src/main/java/tk/serjmusic/controllers/dto/BlogEntryDto.java:62 | assigns the id inherited from the entity superclass and changes no other field |
| Models.BlogEntry.SetTitle | src/main/java/tk/serjmusic/models/BlogEntry.java:100-102 | assigns the title and changes no other field |
| Models.BlogEntry.SetContent | src/main/java/tk/serjmusic/models/BlogEntry.java:118-120 | assigns the content and changes no other field |
| Models.BlogEntry.SetImageLink | src/main/java/tk/serjmusic/models/BlogEntry.java:136-138 | assigns the image link and changes no other field |
| Models.BlogEntry.SetDateCreated | src/main/java/tk/serjmusic/models/BlogEntry.java:154-156 | stores the caller's own date object, not a copy, and changes no other field |
| Models.BlogEntry.SetAuthor | src/main/java/tk/serjmusic/models/BlogEntry.java:172-174 | assigns the author and changes no other field |
| Models.BlogEntry.SetComments | src/main/java/tk/serjmusic/models/BlogEntry.java:190-192 | assigns the comment list and changes no other field |
| Models.BlogEntryEqualsContract | src/main/java/tk/serjmusic/models/BlogEntry.java:200-264 | `BlogEntry.equals` is reflexive, false for `null`, symmetric and transitive, and equal entries have equal hash codes |
| Models.BlogEntryEqualsIgnoresIdAndComments | src/main/java/tk/serjmusic/models/BlogEntry.java:200-264 | entries with the same author, content, date, image link and title are equal and hash alike, whatever their ids and comments |
| Models.BlogComment.constructor | src/main/java/tk/serjmusic/models/BlogComment.java:52-68 | a new comment has id 0, no content, date, author or blog entry |
| Models.BlogComment.WithContent | src/main/java/tk/serjmusic/models/BlogComment.java:70-72 | `BlogComment(content)` sets the content and leaves every other field at its default |
| Models.BlogComment.SetId | src/main/java/tk/serjmusic/controllers/dto/BlogCommentDto.java:59-61 | assigns the id inherited from the entity superclass and changes no other field |
| Models.BlogComment.SetContent | src/main/java/tk/serjmusic/models/BlogComment.java:88-90 | assigns the content and changes no other field |
| Models.BlogComment.GetDateCreated | src/main/java/tk/serjmusic/models/BlogComment.java:97-99 | needs a stored date, and hands out a new date object with the same time |
| Models.BlogComment.SetDateCreated | src/main/java/tk/serjmusic/models/BlogComment.java:106-108 | stores a new date object with the caller's time, never the caller's object |
| Models.BlogComment.SetAuthor | src/main/java/tk/serjmusic/models/BlogComment.java:124-126 | assigns the author and changes no other field |
| Models.BlogComment.SetBlogEntry | src/main/java/tk/serjmusic/models/BlogComment.java:142-144 | assigns the blog entry and changes no other field |
| Models.BlogCommentEqualsContract | src/main/java/tk/serjmusic/models/BlogComment.java:152-208 | `BlogComment.equals` is reflexive, false for `null`, symmetric and transitive, and equal comments have equal hash codes |
| Models.BlogCommentEqualsIgnoresId | src/main/java/tk/serjmusic/models/BlogComment.java:152-208 | comments with the same author, entry, content and date are equal and hash alike, whatever their ids |
| Models.SetDateThenMutateCaller | src/main/java/tk/serjmusic/models/BlogComment.java:106-108 | changing the caller's date after storing it leaves the comment's date at the time that was stored |
| Models.MutateHandedOutDate | src/main/java/tk/serjmusic/models/BlogComment.java:97-99 | changing a date handed out by the getter leaves the comment's own date object and its time as they were |
| Models.PhotoEntry.constructor | src/main/java/tk/serjmusic/models/PhotoEntry.java:45-58 | a new photo entry has id 0, no title, empty description and image link, and is not a background image |
| Models.PhotoEntry.WithTitle | src/main/java/tk/serjmusic/models/PhotoEntry.java:60-63 | `PhotoEntry(title)` sets the title and leaves every other field at its default |
| Models.PhotoEntry.SetId | src/main/java/tk/serjmusic/controllers/dto/PhotoEntryDto.java:55-57 | assigns the id inherited from the entity superclass and changes no other field |
| Models.PhotoEntry.SetTitle | src/main/java/tk/serjmusic/models/PhotoEntry.java:79-81 | assigns the title and changes no other field |
| Models.PhotoEntry.SetDescription | src/main/java/tk/serjmusic/models/PhotoEntry.java:97-99 | assigns the description and changes no other field |
| Models.PhotoEntry.SetImageLink | src/main/java/tk/serjmusic/models/PhotoEntry.java:115-117 | assigns the image link and changes no other field |
| Models.PhotoEntry.SetBackgroundImage | src/main/java/tk/serjmusic/models/PhotoEntry.java:133-135 | assigns the background flag and changes no other field |
| Models.PhotoEntryEqualsContract | src/main/java/tk/serjmusic/models/PhotoEntry.java:143-195 | `PhotoEntry.equals` is reflexive, false for `null`, symmetric and transitive, and equal entries have equal hash codes |
| Models.PhotoEntryEqualsIgnoresId | src/main/java/tk/serjmusic/models/PhotoEntry.java:143-195 | entries with the same description, image link, background flag and title are equal and hash alike, whatever their ids |
| Models.PhotoEntryBackgroundFlagMatters | src/main/java/tk/serjmusic/models/PhotoEntry.java:159-195 | entries whose background flags differ are never equal |
| Models.StaticContent.constructor | src/main/java/tk/serjmusic/models/StaticContent.java:45-55 | a new text has id 0, no description or content, and language `"RU"` |
| Models.StaticContent.WithContent | src/main/java/tk/serjmusic/models/StaticContent.java:57-61 | `StaticContent(s)` sets both the description and the content to `s`, and keeps language `"RU"` |
| Models.StaticContent.SetId | src/main/java/tk/serjmusic/controllers/dto/StaticContentDto.java:53-55 | assigns the id inherited from the entity superclass and changes no other field |
| Models.StaticContent.SetContentDescription | src/main/java/tk/serjmusic/models/StaticContent.java:77-79 | assigns the description and changes no other field |
| Models.StaticContent.SetLanguage | src/main/java/tk/serjmusic/models/StaticContent.java:95-97 | assigns the language and changes no other field |
| Models.StaticContent.SetContent | src/main/java/tk/serjmusic/models/StaticContent.java:113-115 | assigns the content and changes no other field |
| Models.StaticContentEqualsContract | src/main/java/tk/serjmusic/models/StaticContent.java:130-177 | `StaticContent.equals` is reflexive, false for `null`, symmetric and transitive, and equal texts have equal hash codes |
| Models.StaticContentEqualsIgnoresId | src/main/java/tk/serjmusic/models/StaticContent.java:130-177 | texts with the same content, description and language are equal and hash alike, whatever their ids |
| Models.VideoEntry.constructor | src/main/java/tk/serjmusic/models/VideoEntry.java:46-56 | a new video entry has id 0, no title, and an empty description and YouTube link |
| Models.VideoEntry.WithTitle | src/main/java/tk/serjmusic/models/VideoEntry.java:58-60 | `VideoEntry(title)` sets the title and leaves every other field at its default |
| Models.VideoEntry.SetTitle | src/main/java/tk/serjmusic/models/VideoEntry.java:76-78 | assigns the title and changes no other field |
| Models.VideoEntry.SetDescription | src/main/java/tk/serjmusic/models/VideoEntry.java:94-96 | assigns the description and changes no other field |
| Models.VideoEntry.SetYouTubeLink | src/main/java/tk/serjmusic/models/VideoEntry.java:112-114 | assigns the link and changes no other field |
| Models.VideoEntryEqualsContract | src/main/java/tk/serjmusic/models/VideoEntry.java:122-170 | `VideoEntry.equals` is reflexive, false for `null`, symmetric and transitive, and equal entries have equal hash codes |
| Models.VideoEntryEqualsIgnoresId | src/main/java/tk/serjmusic/models/VideoEntry.java:122-170 | entries with the same description, title and link are equal and hash alike, whatever their ids |
| Dto.PatchLaws | src/main/java/tk/serjmusic/controllers/dto/BlogEntryDto.java:62-66 | the null-keeps-the-value rule is idempotent, never invents a value, lets a present value win, and `null` changes nothing; the id rule writes exactly the positive ids and is idempotent |
| Dto.UserDto.constructor | src/main/java/tk/serjmusic/controllers/dto/UserDto.java:42-47 | a new user DTO has id 0, no strings or roles, and is not banned |
| Dto.UserDto.SetUserId | src/main/java/tk/serjmusic/controllers/dto/UserDto.java:63-65 | assigns the id and changes no other field |
| Dto.UserDto.SetUsername | src/main/java/tk/serjmusic/controllers/dto/UserDto.java:81-83 | assigns the username and changes no other field |
| Dto.UserDto.SetPassword | src/main/java/tk/serjmusic/controllers/dto/UserDto.java:101-103 | assigns the password and changes no other field |
| Dto.UserDto.SetEmail | src/main/java/tk/serjmusic/controllers/dto/UserDto.java:119-121 | assigns the email and changes no other field |
| Dto.UserDto.SetRoles | src/main/java/tk/serjmusic/controllers/dto/UserDto.java:137-139 | assigns the role names and changes no other field |
| Dto.UserDto.SetBanned | src/main/java/tk/serjmusic/controllers/dto/UserDto.java:155-157 | assigns the ban flag and changes no other field |
| Dto.UserDto.OverwriteEntity | src/main/java/tk/serjmusic/controllers/dto/BlogEntryDto.java:67 | the object it is given comes back; what it writes is not known (see Left out) |
| Dto.UserDtoEqualsContract | src/main/java/tk/serjmusic/controllers/dto/UserDto.java:163-225 | `UserDto.equals` is reflexive, false for `null`, symmetric and transitive, and equal DTOs have equal hash codes |
| Dto.UserDtoEqualsSeesIdAndBan | src/main/java/tk/serjmusic/controllers/dto/UserDto.java:179-225 | unlike users, user DTOs that differ in id or ban flag are never equal |
| Dto.BlogEntryDto.constructor | src/main/java/tk/serjmusic/controllers/dto/BlogEntryDto.java:46-51 | a new entry DTO has id 0 and no strings, date or author |
| Dto.BlogEntryDto.SetBlogId | src/main/java/tk/serjmusic/controllers/dto/BlogEntryDto.java:85-87 | assigns the id and changes no other field |
| Dto.BlogEntryDto.SetTitle | src/main/java/tk/serjmusic/controllers/dto/BlogEntryDto.java:103-105 | assigns the title and changes no other field |
| Dto.BlogEntryDto.SetContent | src/main/java/tk/serjmusic/controllers/dto/BlogEntryDto.java:121-123 | assigns the content and changes no other field |
| Dto.BlogEntryDto.SetImageLink | src/main/java/tk/serjmusic/controllers/dto/BlogEntryDto.java:139-141 | assigns the image link and changes no other field |
| Dto.BlogEntryDto.SetDateCreated | src/main/java/tk/serjmusic/controllers/dto/BlogEntryDto.java:157-159 | assigns the date object and changes no other field |
| Dto.BlogEntryDto.SetAuthor | src/main/java/tk/serjmusic/controllers/dto/BlogEntryDto.java:175-177 | assigns the author DTO and changes no other field |
| Dto.BlogEntryDto.OverwriteEntity | src/main/java/tk/serjmusic/controllers/dto/BlogEntryDto.java:60-69 | returns the entry it was given; writes the id only when positive, each of title, content, image link and date only when present; replaces a present author with a new `User`; never touches the comments |
| Dto.BlogEntryDto.WriteFields | src/main/java/tk/serjmusic/controllers/dto/BlogEntryDto.java:62-66 | the id is written only when positive, and each of title, content, image link and date only when present; author and comments stay |
| Dto.BlogEntryDtoEqualsContract | src/main/java/tk/serjmusic/controllers/dto/BlogEntryDto.java:183-249 | `BlogEntryDto.equals` is reflexive, false for `null`, symmetric and transitive, and equal DTOs have equal hash codes |
| Dto.OverwriteBlogEntryTwice | src/main/java/tk/serjmusic/controllers/dto/BlogEntryDto.java:62-67 | applying a DTO twice leaves the same id, strings, date and comments as applying it once |
| Dto.OverwriteBlogEntryWithEmptyDto | src/main/java/tk/serjmusic/controllers/dto/BlogEntryDto.java:60-69 | a DTO fresh from its constructor leaves every field of the entry as it was |
| Dto.BlogCommentDto.constructor | src/main/java/tk/serjmusic/controllers/dto/BlogCommentDto.java:46-50 | a new comment DTO has id 0 and no content, date, author or entry |
| Dto.BlogCommentDto.SetCommentId | src/main/java/tk/serjmusic/controllers/dto/BlogCommentDto.java:92-94 | assigns the id and changes no other field |
| Dto.BlogCommentDto.SetContent | src/main/java/tk/serjmusic/controllers/dto/BlogCommentDto.java:110-112 | assigns the content and changes no other field |
| Dto.BlogCommentDto.SetDateCreated | src/main/java/tk/serjmusic/controllers/dto/BlogCommentDto.java:128-130 | assigns the date object and changes no other field |
| Dto.BlogCommentDto.SetAuthor | src/main/java/tk/serjmusic/controllers/dto/BlogCommentDto.java:146-148 | assigns the author DTO and changes no other field |
| Dto.BlogCommentDto.SetBlogEntry | src/main/java/tk/serjmusic/controllers/dto/BlogCommentDto.java:164-166 | assigns the entry DTO and changes no other field |
| Dto.BlogCommentDto.OverwriteEntity | src/main/java/tk/serjmusic/controllers/dto/BlogCommentDto.java:58-76 | returns the comment it was given; writes the id only when positive and the content only when present; a present date is stored as a copy; a present author or entry is replaced by a new entity, the entry one built by the entry DTO from a fresh `BlogEntry` |
| Dto.BlogCommentDtoEqualsContract | src/main/java/tk/serjmusic/controllers/dto/BlogCommentDto.java:172-230 | `BlogCommentDto.equals` is reflexive, false for `null`, symmetric and transitive, and equal DTOs have equal hash codes |
| Dto.PhotoEntryDto.constructor | src/main/java/tk/serjmusic/controllers/dto/PhotoEntryDto.java:42-46 | a new photo DTO has id 0, no strings, and the background flag off |
| Dto.PhotoEntryDto.SetPhotoEntryId | src/main/java/tk/serjmusic/controllers/dto/PhotoEntryDto.java:86-88 | assigns the id and changes no other field |
| Dto.PhotoEntryDto.SetTitle | src/main/java/tk/serjmusic/controllers/dto/PhotoEntryDto.java:104-106 | assigns the title and changes no other field |
| Dto.PhotoEntryDto.SetDescription | src/main/java/tk/serjmusic/controllers/dto/PhotoEntryDto.java:122-124 | assigns the description and changes no other field |
| Dto.PhotoEntryDto.SetImageLink | src/main/java/tk/serjmusic/controllers/dto/PhotoEntryDto.java:140-142 | assigns the image link and changes no other field |
| Dto.PhotoEntryDto.SetBackgroundImage | src/main/java/tk/serjmusic/controllers/dto/PhotoEntryDto.java:158-160 | assigns the background flag and changes no other field |
| Dto.PhotoEntryDto.OverwriteEntity | src/main/java/tk/serjmusic/controllers/dto/PhotoEntryDto.java:54-69 | returns the entry it was given; writes the id only when positive and each string only when present, but always writes the background flag |
| Dto.PhotoEntryDtoEqualsContract | src/main/java/tk/serjmusic/controllers/dto/PhotoEntryDto.java:166-220 | `PhotoEntryDto.equals` is reflexive, false for `null`, symmetric and transitive, and equal DTOs have equal hash codes |
| Dto.OverwriteClearsBackgroundFlag | src/main/java/tk/serjmusic/controllers/dto/PhotoEntryDto.java:67 | a fresh DTO clears the entry's background flag and leaves its id and strings as they were |
| Dto.StaticContentDto.constructor | src/main/java/tk/serjmusic/controllers/dto/StaticContentDto.java:41-44 | a new text DTO has id 0 and no strings |
| Dto.StaticContentDto.SetStaticContentId | src/main/java/tk/serjmusic/controllers/dto/StaticContentDto.java:82-84 | assigns the id and changes no other field |
| Dto.StaticContentDto.SetContentDescription | src/main/java/tk/serjmusic/controllers/dto/StaticContentDto.java:100-102 | assigns the description and changes no other field |
| Dto.StaticContentDto.SetLanguage | src/main/java/tk/serjmusic/controllers/dto/StaticContentDto.java:118-120 | assigns the language and changes no other field |
| Dto.StaticContentDto.SetContent | src/main/java/tk/serjmusic/controllers/dto/StaticContentDto.java:136-138 | assigns the content and changes no other field |
| Dto.StaticContentDto.OverwriteEntity | src/main/java/tk/serjmusic/controllers/dto/StaticContentDto.java:52-66 | returns the text it was given; writes the id only when positive and each string only when present |
| Dto.StaticContentDtoEqualsContract | src/main/java/tk/serjmusic/controllers/dto/StaticContentDto.java:144-195 | `StaticContentDto.equals` is reflexive, false for `null`, symmetric and transitive, and equal DTOs have equal hash codes |
| Dto.VideoEntryDto.constructor | src/main/java/tk/serjmusic/controllers/dto/VideoEntryDto.java:36-39 | a new video DTO has id 0 and no strings |
| Dto.VideoEntryDto.SetVideoEntryId | src/main/java/tk/serjmusic/controllers/dto/VideoEntryDto.java:55-57 | assigns the id and changes no other field |
| Dto.VideoEntryDto.SetTitle | src/main/java/tk/serjmusic/controllers/dto/VideoEntryDto.java:73-75 | assigns the title and changes no other field |
| Dto.VideoEntryDto.SetDescription | src/main/java/tk/serjmusic/controllers/dto/VideoEntryDto.java:91-93 | assigns the description and changes no other field |
| Dto.VideoEntryDto.SetYouTubeLink | src/main/java/tk/serjmusic/controllers/dto/VideoEntryDto.java:109-111 | assigns the link and changes no other field |
| Dto.VideoEntryDtoEqualsContract | src/main/java/tk/serjmusic/controllers/dto/VideoEntryDto.java:117-167 | `VideoEntryDto.equals` is reflexive, false for `null`, symmetric and transitive, and equal DTOs have equal hash codes |
| Dto.VideoEntryDtoEqualsSeesId | src/main/java/tk/serjmusic/controllers/dto/VideoEntryDto.java:131-167 | video DTOs with different ids are never equal |
| DtoAsm.RoleNamesExact | src/main/java/tk/serjmusic/controllers/dto/asm/UserDtoAsm.java:66-68 | the DTO's role names are exactly the names of the user's roles, one name per role |
| DtoAsm.UserToResource | src/main/java/tk/serjmusic/controllers/dto/asm/UserDtoAsm.java:57-74 | a new DTO carrying the user's id, username, password, email and ban flag unchanged, and the names of its roles; the user is not changed |
| DtoAsm.BlogEntryToResource | src/main/java/tk/serjmusic/controllers/dto/asm/BlogEntryDtoAsm.java:53-63 | needs an author; a new DTO with the entry's id, content, date object, image link and title, and a new author DTO built from the author |
| DtoAsm.BlogCommentToResource | src/main/java/tk/serjmusic/controllers/dto/asm/BlogCommentDtoAsm.java:54-63 | needs an author, an entry with an author, and a date; a new DTO with the content and id, a copied date, and new author and entry DTOs built from the comment's own |
| DtoAsm.PhotoEntryToResource | src/main/java/tk/serjmusic/controllers/dto/asm/PhotoEntryDtoAsm.java:51-60 | a new DTO with the entry's background flag, description, image link, id and title |
| DtoAsm.StaticContentToResource | src/main/java/tk/serjmusic/controllers/dto/asm/StaticContentDtoAsm.java:55-67 | a new DTO with the text's content, description, language and id |
| DtoAsm.VideoEntryToResource | src/main/java/tk/serjmusic/controllers/dto/asm/VideoEntryDtoAsm.java:54-64 | a new DTO with the entry's description, title, id and link |
| DtoAsm.BlogEntryRoundTrip | src/main/java/tk/serjmusic/controllers/dto/asm/BlogEntryDtoAsm.java:53-63 | writing an entry's DTO onto a new entry restores its title, content, image link and date, and its id when positive; the author comes back as a different object and the comments as empty |
| DtoAsm.BlogCommentRoundTrip | src/main/java/tk/serjmusic/controllers/dto/asm/BlogCommentDtoAsm.java:54-63 | writing a comment's DTO onto a new comment restores its content, its id when positive, and the entry's fields; the date comes back as a different object with the same time |
| DtoAsm.PhotoEntryRoundTrip | src/main/java/tk/serjmusic/controllers/dto/asm/PhotoEntryDtoAsm.java:51-60 | the round trip restores a positive id, the title and the flag, turns a missing string into the default `""`, and gives an equal entry when both strings are present |
| DtoAsm.StaticContentRoundTrip | src/main/java/tk/serjmusic/controllers/dto/asm/StaticContentDtoAsm.java:55-67 | the round trip restores a positive id, the description and the content, turns a missing language into `"RU"`, and gives an equal text when the language is present |
| DtoAsm.EqualVideoEntriesGiveEqualDtos | src/main/java/tk/serjmusic/controllers/dto/asm/VideoEntryDtoAsm.java:54-64 | equal video entries with the same id give equal DTOs with equal hash codes |
| DtoAsm.NewVideoEntryDto | src/main/java/tk/serjmusic/controllers/dto/asm/VideoEntryDtoAsm.java:54-64 | the DTO of a new video entry has an empty description and link, no title and id 0 |
| DtoAsm.EqualPhotoEntriesGiveEqualDtos | src/main/java/tk/serjmusic/controllers/dto/asm/PhotoEntryDtoAsm.java:51-60 | equal photo entries with the same id give equal DTOs with equal hash codes |
| DtoAsm.EqualStaticContentsGiveEqualDtos | src/main/java/tk/serjmusic/controllers/dto/asm/StaticContentDtoAsm.java:55-67 | equal texts with the same id give equal DTOs with equal hash codes |
| Dao.SortedIds | src/main/java/tk/serjmusic/dao/impl/AbstractGenericDao.java:181-183 | the table's ids, each once, in strictly ascending order |
| Dao.Reverse | src/main/java/tk/serjmusic/dao/impl/AbstractGenericDao.java:181-182 | the same rows read back to front |
| Dao.Window | src/main/java/tk/serjmusic/dao/impl/AbstractGenericDao.java:186 | skipping `offset` rows and keeping at most `size` gives the next `min(size, rest)` rows in order, or none past the end |
| Dao.PageOffset | src/main/java/tk/serjmusic/dao/impl/AbstractGenericDao.java:185 | a page starts one page size before the end of the pages up to it, and never before row 0 |
| Dao.Page | src/main/java/tk/serjmusic/dao/impl/AbstractGenericDao.java:185-186 | a page has at most `pageSize` rows, all of them from the page's offset on, in order; it is full when the rows reach its end and empty past the end |
| Dao.PageOffsetAsWritten | src/main/java/tk/serjmusic/dao/impl/AbstractGenericDao.java:185 | the 32-bit offset equals the true one whenever the true one fits in an `int` |
| Dao.PageAsWritten | src/main/java/tk/serjmusic/dao/impl/AbstractGenericDao.java:185-186 | the page fetched with the 32-bit offset is the intended page whenever the true offset fits in an `int` |
| Dao.PageOffsetOverflows | src/main/java/tk/serjmusic/dao/impl/AbstractGenericDao.java:185 | page 65537 of size 65536 wraps to offset 0 and repeats page 1, and page 3 of size 2^31-1 gets a negative offset, where both intended pages are empty |
| Dao.PageDistinct | src/main/java/tk/serjmusic/dao/impl/BlogEntryDaoImpl.java:79-82 | a page of rows without repeats has no repeats |
| Dao.FirstPageHoldsAll | src/main/java/tk/serjmusic/dao/impl/AbstractGenericDao.java:185-186 | page 1 of a size that covers every row is the whole result |
| Dao.PagesConcatenate | src/main/java/tk/serjmusic/dao/impl/AbstractGenericDao.java:185-186 | pages 1 to n laid end to end are the first n page sizes of rows, so paging misses no row and repeats none |
| Dao.PagesDisjoint | src/main/java/tk/serjmusic/dao/impl/AbstractGenericDao.java:185-186 | two different pages of rows without repeats share no row |
| Dao.FilterIds | src/main/java/tk/serjmusic/dao/impl/UserDaoImpl.java:122-125 | keeps exactly the ids whose row satisfies the condition; the result is a subsequence of the scan, so it keeps the scan's order, and it is ascending and without repeats when the scan is |
| Dao.Select | src/main/java/tk/serjmusic/dao/impl/UserDaoImpl.java:122-130 | returns the stored rows that satisfy the condition, every one of them; their ids are a subsequence of the scan, so they come in scan order, and without repeats when the scan has none |
| Dao.FindUnique | src/main/java/tk/serjmusic/dao/impl/UserDaoImpl.java:70-86 | `getSingleResult`: `null` exactly when no row matches; the one matching row when exactly one does; a thrown non-unique error exactly when two distinct rows match |
| Dao.Table.constructor | src/main/java/tk/serjmusic/dao/impl/AbstractGenericDao.java:59-64 | a new table is empty and hands out id 1 next |
| Dao.Table.Persist | src/main/java/tk/serjmusic/dao/impl/AbstractGenericDao.java:76-78 | a new entity is stored under a fresh id, so the count grows by one and every other row stays; an already-stored id raises entity-exists and changes nothing |
| Dao.Table.Find | src/main/java/tk/serjmusic/dao/impl/AbstractGenericDao.java:86-97 | the stored row with that id, and `null` exactly when there is none |
| Dao.Table.Merge | src/main/java/tk/serjmusic/dao/impl/AbstractGenericDao.java:105-107 | a stored id has its row replaced by the new state; any other entity becomes a new row under a fresh id; no other row changes |
| Dao.Table.Remove | src/main/java/tk/serjmusic/dao/impl/AbstractGenericDao.java:115-117 | deletes exactly the row with the entity's id, so a stored entity takes the count down by one |
| Dao.Table.FindAll | src/main/java/tk/serjmusic/dao/impl/AbstractGenericDao.java:125-143 | every stored row exactly once, each with its stored state, in ascending id order |
| Dao.Table.CountAll | src/main/java/tk/serjmusic/dao/impl/AbstractGenericDao.java:151-169 | the number of rows whenever it fits in an `int`, and 0 for an empty table |
| Dao.Table.Ordered | src/main/java/tk/serjmusic/dao/impl/AbstractGenericDao.java:181-183 | every row once, each with its stored state, in ascending or descending id order as asked |
| Dao.Table.FindPaginatedAndOrdered | src/main/java/tk/serjmusic/dao/impl/AbstractGenericDao.java:175-197 | exactly min(`pageSize`, rows left) stored rows in the asked id order, and none past the end: the ones from the page's offset on; page 1 of a covering size is every row; whenever the offset fits in an `int` this is the page the 32-bit arithmetic fetches (`Dao.PageAsWritten`) |
| Dao.ReverseSorted | src/main/java/tk/serjmusic/dao/impl/AbstractGenericDao.java:181-183 | stored rows in ascending id order, reversed, are stored rows in descending order |
| Dao.PageInherits | src/main/java/tk/serjmusic/dao/impl/AbstractGenericDao.java:185-186 | a page of stored rows in id order is itself stored and in that order |
| Dao.FindUserByUsername | src/main/java/tk/serjmusic/dao/impl/UserDaoImpl.java:70-86 | the user whose username equals the argument; `null` exactly when none does, including for a `null` argument; a non-unique error exactly when two users share it |
| Dao.FindUserByEmail | src/main/java/tk/serjmusic/dao/impl/UserDaoImpl.java:94-110 | the user whose email equals the argument; `null` exactly when none does, including for a `null` argument; a non-unique error exactly when two users share it |
| Dao.RenameByMerge | src/main/java/tk/serjmusic/dao/impl/UserDaoImpl.java:70-86 | once `merge` gives a stored user a new, unused username, the old name finds nobody and the new name finds that user |
| Dao.CommentsByAuthor | src/main/java/tk/serjmusic/dao/impl/UserDaoImpl.java:122-127 | every stored comment whose author has that id, each once, in ascending comment id order, and nothing else |
| Dao.FindUserCommentsByUserId | src/main/java/tk/serjmusic/dao/impl/UserDaoImpl.java:118-140 | exactly min(`pageSize`, comments left) of the user's own stored comments, in ascending id order without repeats, those from the page's offset on; the same page as the 32-bit arithmetic whenever the offset fits |
| Dao.CommentsOfBlog | src/main/java/tk/serjmusic/dao/impl/BlogEntryDaoImpl.java:74-79 | every stored comment of that blog entry, each once, nothing else, with ids a subsequence of the database's scan order |
| Dao.FindPaginatedCommentsForBlogId | src/main/java/tk/serjmusic/dao/impl/BlogEntryDaoImpl.java:70-92 | exactly min(`pageSize`, comments left) of the entry's own stored comments, without repeats, those from the page's offset on in scan order; the same page as the 32-bit arithmetic whenever the offset fits |
| Dao.ThreeCommentsOnTwoPages | src/main/java/tk/serjmusic/dao/impl/BlogEntryDaoImpl.java:81-83 | with three comments, page 1 of size 2 holds two and page 2 holds one, together all three and none on both |
| Dao.FindStaticContentByDescription | src/main/java/tk/serjmusic/dao/impl/StaticContentDaoImpl.java:70-88 | the text whose description equals the argument; `null` exactly when none does; a non-unique error exactly when two texts share it |
| Dao.UniqueDescriptionFound | src/main/java/tk/serjmusic/dao/impl/StaticContentDaoImpl.java:76-86 | when descriptions are unique the lookup never fails, and a matching text is the one found |
| Services.Answer | src/main/java/tk/serjmusic/services/impl/AbstractGenericServiceImpl.java:93-104 | a value comes back unchanged, a `null` answer is exactly CanNotFind, a thrown storage error is exactly PersistentLayerProblems, and nothing else is raised |
| Services.GenericService.constructor | src/main/java/tk/serjmusic/services/impl/AbstractGenericServiceImpl.java:62 | the service works on the DAO it was given |
| Services.GenericService.Create | src/main/java/tk/serjmusic/services/impl/AbstractGenericServiceImpl.java:71-82 | `null` is refused; a duplicate becomes AlreadyExists and any other storage failure PersistentLayerProblems, both leaving the table alone; otherwise the merged row is stored and returned, and `getById` finds it |
| Services.GenericService.GetById | src/main/java/tk/serjmusic/services/impl/AbstractGenericServiceImpl.java:91-105 | refused exactly for a negative id, so 0 is looked up; a storage failure is PersistentLayerProblems; the stored row when the id is stored, CanNotFind when it is not |
| Services.GenericService.Update | src/main/java/tk/serjmusic/services/impl/AbstractGenericServiceImpl.java:114-125 | `null` is refused and a storage failure leaves the table alone; otherwise the `merge` result is returned, the entity itself when stored, and an unknown entity is stored as a new row |
| Services.GenericService.Delete | src/main/java/tk/serjmusic/services/impl/AbstractGenericServiceImpl.java:134-143 | `null` is refused and a storage failure leaves the table alone; otherwise exactly that row is removed, so `getById` no longer finds it; a missing row is not an error |
| Services.GenericService.GetAll | src/main/java/tk/serjmusic/services/impl/AbstractGenericServiceImpl.java:152-163 | succeeds exactly when storage does not fail, with every stored row once by ascending id; an empty table gives an empty list, not CanNotFind |
| Services.GenericService.CountAll | src/main/java/tk/serjmusic/services/impl/AbstractGenericServiceImpl.java:172-183 | PersistentLayerProblems exactly on a storage failure; CanNotFind exactly when the DAO counts 0; otherwise the DAO's count, which is the number of rows when that fits in an `int` |
| Services.GenericService.GetPaginatedAndOrdered | src/main/java/tk/serjmusic/services/impl/AbstractGenericServiceImpl.java:192-207 | refused exactly when `pageNumber < 1` or `pageSize < 0`; then PersistentLayerProblems exactly on failure; otherwise exactly min(`pageSize`, rows left) stored rows in the asked order, those from the page's offset on |
| Services.GenericService.CountAgreesWithGetAll | src/main/java/tk/serjmusic/services/impl/AbstractGenericServiceImpl.java:152-183 | for a table of fewer than 2^31 rows, `countAll` is CanNotFind exactly when `getAll` is the empty list, and otherwise the length of that list |
| Services.GenericService.FirstPageIsGetAll | src/main/java/tk/serjmusic/services/impl/AbstractGenericServiceImpl.java:192-207 | page 1 in ascending order, of a size that covers the table, is the same answer as `getAll` |
| Services.GetUserByUsername | src/main/java/tk/serjmusic/services/impl/UserServiceImpl.java:74-89 | refused exactly for a `null` name; then CanNotFind exactly for a `null` answer, PersistentLayerProblems exactly for a thrown one, and a found user unchanged |
| Services.UsernameLookup | src/main/java/tk/serjmusic/services/impl/UserServiceImpl.java:74-89 | over the user table: CanNotFind exactly when no user has the name; PersistentLayerProblems exactly on a storage failure or two users with the name; otherwise the one user with it |
| Services.GetUserByEmail | src/main/java/tk/serjmusic/services/impl/UserServiceImpl.java:96-111 | refused exactly for a `null` email; then CanNotFind exactly for a `null` answer, PersistentLayerProblems exactly for a thrown one, and a found user unchanged |
| Services.EmailLookup | src/main/java/tk/serjmusic/services/impl/UserServiceImpl.java:96-111 | over the user table: CanNotFind exactly when no user has the email; PersistentLayerProblems exactly on a storage failure or two users with it; otherwise the one user with it |
| Services.GetUserCommentsByUserId | src/main/java/tk/serjmusic/services/impl/UserServiceImpl.java:118-134 | refused exactly for a negative id, page number below 1 or negative page size, so id 0 and size 0 pass; then the DAO answer mapped, any list returned unchanged |
| Services.UserCommentsLookup | src/main/java/tk/serjmusic/services/impl/UserServiceImpl.java:118-134 | over the comment table: never CanNotFind; PersistentLayerProblems exactly on failure; otherwise exactly the page, by `Dao.Page`, of the user's own comments by ascending id |
| Services.GetPaginatedCommentsForBlogId | src/main/java/tk/serjmusic/services/impl/BlogEntryServiceImpl.java:69-86 | refused exactly for a negative blog id, page number below 1 or negative page size; then the DAO answer mapped, the list returned unchanged |
| Services.BlogCommentsLookup | src/main/java/tk/serjmusic/services/impl/BlogEntryServiceImpl.java:69-86 | over the comment table: never CanNotFind; PersistentLayerProblems exactly on failure; otherwise exactly the page, by `Dao.Page`, of the entry's own comments in scan order, each once |
| Services.GetStaticContentByDescription | src/main/java/tk/serjmusic/services/impl/StaticContentServiceImpl.java:61-75 | refused exactly for a `null` description; then CanNotFind exactly for a `null` answer, PersistentLayerProblems exactly for a thrown one, and a found text unchanged |
| Services.DescriptionLookup | src/main/java/tk/serjmusic/services/impl/StaticContentServiceImpl.java:61-75 | over a text table with unique descriptions: PersistentLayerProblems only on a storage failure; CanNotFind exactly when no text has the description; otherwise the text with it |
| Exceptions.Throwable.constructor | src/main/java/tk/serjmusic/controllers/exceptions/ExceptionHandlerAdvice.java:128-135 | an exception holds its kind, class name, message and cause |
| Exceptions.ChainUnique | src/main/java/tk/serjmusic/controllers/exceptions/ExceptionHandlerAdvice.java:128-135 | an exception has at most one cause chain, so its root cause is well defined |
| Exceptions.GetRootCause | src/main/java/tk/serjmusic/controllers/exceptions/ExceptionHandlerAdvice.java:128-135 | the last exception of the cause chain, which has no cause or is its own cause; an exception that stops is its own root |
| Exceptions.ToErrorMessage | src/main/java/tk/serjmusic/controllers/exceptions/ExceptionHandlerAdvice.java:143-146 | the body is made from the root cause's message and class alone, and from the exception itself only when it is its own root |
| Exceptions.FirstQuote | src/main/java/tk/serjmusic/controllers/exceptions/ExceptionHandlerAdvice.java:144-145 | the position of the first quote in a string is within the string |
| Exceptions.FirstQuoteAfter | src/main/java/tk/serjmusic/controllers/exceptions/ExceptionHandlerAdvice.java:144-145 | in a quote-free message followed by a quote, the first quote ends the message |
| Exceptions.ErrorBodyNamesRoot | src/main/java/tk/serjmusic/controllers/exceptions/ExceptionHandlerAdvice.java:143-146 | for quote-free messages, equal bodies come only from equal messages and equal class names |
| Exceptions.HandleException | src/main/java/tk/serjmusic/controllers/exceptions/ExceptionHandlerAdvice.java:52-120 | the status is the one of the handler for the exception's own type, the content type is `application/json`, and the body describes the root cause |
| Exceptions.ServiceErrorStatus | src/main/java/tk/serjmusic/controllers/exceptions/ExceptionHandlerAdvice.java:63-120 | 404 exactly for CanNotFind, 409 exactly for AlreadyExists and PersistentLayerProblems, 400 exactly for IllegalArgument; 500 is never a service error's status and is the status of any other exception |

## Left out

- The JPA entity manager, criteria queries, query-cache hints and `@Transactional`: each table is an in-memory map, and a storage failure is the `fault` parameter. A failed call is modelled as changing nothing; transaction rollback itself is not modelled. JPA's managed/detached distinction is not modelled either: `Dao.Table.Remove` removes by id, whereas JPA `remove` refuses a detached entity with `IllegalArgumentException`, which is what the controllers' `delete(getById(id))` passes unless the persistence context spans the request. The Spring configuration that decides this is not part of this model.
- Database constraints such as unique usernames and emails are not enforced by `Table`. The finders model what happens when they are broken: the non-unique error.
- `Dao.Table.FindAll`: the query has no `ORDER BY`, and the model returns the rows in ascending id order, one order the database may choose.
- `Dao.FindPaginatedCommentsForBlogId`: the query has no `ORDER BY`. The database's scan order is the parameter `scan`.
- The DAO layer takes `pageNumber >= 1` and `pageSize >= 0` as a precondition. Every DAO caller in the code checks these first.
- `Dao.Table.FindPaginatedAndOrdered` uses the intended offset `(pageNumber - 1) * pageSize`, not the 32-bit one (see "Findings"). Its contract states that both agree whenever the offset fits in an `int`. Where it does not, the source returns a wrapped page or throws from `setFirstResult`, and the model does not promise that.
- `Dao.FindUserCommentsByUserId` uses the intended offset in the same way, with the same agreement whenever the offset fits.
- `Dao.FindPaginatedCommentsForBlogId` uses the intended offset in the same way, with the same agreement whenever the offset fits.
- `Services.GenericService.GetPaginatedAndOrdered` returns the DAO's page at the intended offset. Where the 32-bit offset is negative, the source's `IllegalArgumentException` from `setFirstResult` is not a `PersistenceException` and escapes the service; the model returns the page at the intended offset there instead, and also where the source's offset wraps to a positive one.
- `Services.UserCommentsLookup` is stated over the intended offset, as its DAO member is.
- `Services.BlogCommentsLookup` is stated over the intended offset, as its DAO member is.
- `UserRole.java` is not part of this model. The two constants `ROLE_USER` and `ROLE_ADMIN` are inferred from their uses in the controllers and the DAO tests. `Models.RoleNameInjective` and `DtoAsm.RoleNamesExact` hold for these two only; the front end also tests for a `ROLE_EDITOR` the code never names.
- SQL `NULL` comparisons never match, so a `null` username, email or description finds nothing.
- Bean validation of the username is stated as a predicate (`Models.UsernameConstraints`). No operation enforces it, just as nothing in the code calls the validator.
- `DtoAsm.BlogEntryToResource` requires the entry's author. For a `null` author the Java throws `NullPointerException` (`BlogEntryDtoAsm.java:55` hands it to `UserDtoAsm.toResource`, which dereferences it), and the catch-all handler answers 500. The model excludes this input by precondition.
- `DtoAsm.BlogCommentToResource` requires the comment's author, its blog entry, that entry's author and its date. For any of them `null` the Java throws `NullPointerException` (`BlogCommentDtoAsm.java:56-59`), answered 500. The model excludes these inputs by precondition.
- `Models.BlogComment.GetDateCreated` requires a date. For a `null` date `BlogComment.java:98` throws `NullPointerException`. The model excludes this input by precondition. Nothing in the create paths guarantees any of these fields, so the exception is reachable in the source.
- `Dto.UserDto.OverwriteEntity`: the code calls it, but `UserDto.java` has no such method. The model promises only that the given user comes back. `VideoEntryDto.overwriteEntity` is missing in the same way, and its only caller is a controller, so it is not modelled.
- `UserDtoAsm.toResource` also calls `setImageLink` and `setImageFile`, which `UserDto.java` lacks. `DtoAsm.UserToResource` does not copy those two fields.
- `AbstractEntity` is not part of this model. Its `id` is an `int` field on each entity, with the `setId` calls the DTOs make.
- The HATEOAS links of `ResourceSupport` are not modelled. The blog entry, blog comment and photo entry DTOs build on the superclass's `equals`/`hashCode`, and their assemblers add no links, so there the superclass contributes "not null" and the hash 1 of an empty list. The user, static-content and video assemblers add a self link and a collection link; those DTOs' own `equals`/`hashCode` ignore the links, and the model leaves them out. The `@JsonIgnore`/`@JsonProperty` serialization rules are not modelled.
- `getCause()` is read as the exception's `cause` field, which is `null` when there is no cause. The code's extra stop for an exception that is its own cause is kept. `initCause` and exception subclasses that override `getCause` are not modelled.
- A cause chain that cycles through two or more exceptions makes `getRootCause` loop forever. `Exceptions.GetRootCause` requires a finite chain, the ghost `chain` parameter.
- The service exceptions' message texts, which use the DAO class's simple name, are not modelled, and neither is logging (`LoggingAspect`, Log4j, the `System.out.println` in `overwriteEntity`).
- `new Date()`, the clock, is not used by the core and not modelled.
- `JavaLang.StringHash` runs over code points, where Java's `String.hashCode` runs over UTF-16 code units; the two differ only for characters above U+FFFF. No proved property depends on exact hash values.
- `hashCode` is modelled with Java's 32-bit `31 * h + x` arithmetic; the `UserDto` and `BlogEntryDto` hashes are ghost because they hash sets.
- The `GenericService` interface declares `create` as `void` while the implementation returns the merged entity; the model follows the implementation.
- `create` calls `merge`, even though the service tests stub and verify `persist`; the model follows the code (`Services.GenericService.Create`).
- `BlogEntryServiceImpl` uses the superclass's `dao` field, which is private there. The model reads the entry DAO's comment answer directly.
- The controllers, the Spring wiring, the security handler `AuthSuccess` and the JavaScript front end are outside the core.
- The controllers' own guards (`pageSize < 1`) and the user-creation defaults that rely on a password encoder are not modelled.

## Findings

| source | as written | input that shows it | evidently intended | confidence | as-written member | corrected member |
|---|---|---|---|---|---|---|
| src/main/java/tk/serjmusic/dao/impl/AbstractGenericDao.java:185 (also UserDaoImpl.java:129, BlogEntryDaoImpl.java:81) | `int startPosition = (pageNumber - 1) * pageSize` in 32-bit `int` arithmetic | page 65537 of size 65536 wraps to offset 0 and returns page 1 again; page 3 of size 2^31-1 gives a negative offset, which `setFirstResult` refuses | the mathematical offset, which gives an empty page past the end | not executed | Dao.PageOffsetOverflows (with Dao.PageAsWritten) | Dao.Page |
