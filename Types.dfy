/** The shared records and enumerations of the site (types.ts). */
module Types {

  /** A value that may be absent; stands for `T | null` and for optional props. */
  datatype Option<+T> = None | Some(value: T)

  /** The four full-page views the shell can show. */
  datatype ViewState = HOME | BLOG_POST | ALL_PROJECTS | ALL_BLOGS

  /** The progress of an asynchronous operation as the UI tracks it. */
  datatype LoadingState = IDLE | LOADING | SUCCESS | ERROR

  /**
   * One guestbook record. `createdAt` is the creation instant in milliseconds
   * (the source stores its ISO rendering), `signature` a colour token.
   */
  datatype GuestbookEntry = GuestbookEntry(
    id: int,
    name: string,
    message: string,
    createdAt: int,
    signature: string)

  /** A blog post; `content` is the markdown-like body, `tags` keep their order. */
  datatype BlogPost = BlogPost(
    id: string,
    title: string,
    excerpt: string,
    date: string,
    readTime: string,
    tags: seq<string>,
    content: string)
}
