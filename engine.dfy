/**
 * What the server receives from the outside world in one tool call: the
 * automation library (Puppeteer), whose objects are opaque handles and whose
 * calls either return or throw, and the wall clock.
 */
module Engine {

  /** An opaque browser or page object. Two handles are the same object exactly when they are equal. */
  type Handle = nat

  /** What one awaited library call does: return normally, or throw an error with this message. */
  datatype Effect = Succeeds | Fails(message: string)

  /**
   * The environment of one tool call: what `puppeteer.launch` does, what
   * `browser.newPage` does, what the tool's own library call does (`goto`,
   * `click`, `close`, `bringToFront`, ...), the reading of `Date.now()`, and the
   * text returned by a library call that produces data (page content,
   * element text, script results, cookies, extracted links or tables).
   */
  datatype World = World(launch: Effect, newPage: Effect, call: Effect, clock: nat, output: string)
}
