/**
 * The newsletter record of packages/functions/src/newsletters/interface.ts and
 * the newsletters table (keyed by `id`), as an in-memory map.
 */
module Newsletters {
  import opened Wrappers

  datatype NewsletterStatus = PRIVATE | PUBLIC

  /** The optional `seo` object an update may set. */
  datatype Seo = Seo(title: string, description: string, tags: Option<seq<string>>)

  /**
   * A stored newsletter. Times are integer milliseconds. `title` through `seo`
   * are the presentation fields only an update sets; `deletedAt`/`deletedBy`
   * of the interface are never written and are not represented.
   */
  datatype Newsletter = Newsletter(
    id: string,
    subject: string,
    content: string,
    status: NewsletterStatus,
    publishAt: Option<int>,
    publishedAt: Option<int>,
    sfExecutionArn: Option<string>,
    createdAt: int,
    createdBy: string,
    updatedAt: Option<int>,
    updatedBy: Option<string>,
    title: Option<string>,
    description: Option<string>,
    slug: Option<string>,
    image: Option<string>,
    contentMd: Option<string>,
    seo: Option<Seo>)

  /** The newsletters table: id -> record. */
  type Store = map<string, Newsletter>

  /** A newsletter is scheduled while it carries an execution ARN. */
  predicate IsScheduled(n: Newsletter) {
    n.sfExecutionArn.Some?
  }
}
