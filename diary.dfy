/** The entities the journal keeps: tags, entries, timestamps and conversation turns. */
module Diary {
  import opened Wrappers

  /** A typed annotation of an entry; `kind` is the tag's `type` ("Event", "Entity", ...). */
  datatype Tag = Tag(kind: string, value: string)

  /**
   * A creation timestamp: its ISO-8601 text and the calendar year the local time zone
   * assigns to it (`new Date(createdAt).getFullYear()`); `None` when the text does not
   * parse as a date (the year is then NaN).
   */
  datatype Timestamp = Timestamp(iso: string, localYear: Option<int>)

  /** A journal entry as `addEntry` stores it; `tags` is `None` when the record lacks them. */
  datatype Entry = Entry(id: int, content: string, aiResponse: string,
                         tags: Option<seq<Tag>>, createdAt: Timestamp)

  /** `entry.tags || []`. */
  function TagsOf(e: Entry): seq<Tag> {
    if e.tags.Some? then e.tags.value else []
  }

  /** One turn of a transcript held by the client: `{role, content}`. */
  datatype Turn = Turn(role: string, content: string)

  /** The `content` sent to the chat service: `{role, parts: [{text}]}`. */
  datatype ChatContent = ChatContent(role: string, text: string)

  /**
   * What a JSON parser makes of a model reply: not JSON at all, JSON that is not an
   * array, or an array of items.
   */
  datatype Parsed<T> = Malformed | NotArray | Array(items: seq<T>)
}
