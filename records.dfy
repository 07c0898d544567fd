/** The values that flow through anime.py: the decoded Jikan search hit and
    the reply of the text-generation service. */
module Records {

  datatype Option<+T> = None | Some(value: T)

  /** One entry of a hit's `genres` array; only its `name` is ever read. */
  datatype Genre = Genre(name: string)

  /** The first element of the Jikan `data` array, reduced to the keys the
      program reads: `title`, `genres`, `aired.string` and `synopsis`.
      `synopsis` is nullable in the service's answer, hence the Option.
      A hit is a non-empty JSON object, so Python always treats it as true:
      "no hit" is the None of an Option<AnimeRecord>, never a record. */
  datatype AnimeRecord = AnimeRecord(
    title: string,
    genres: seq<Genre>,
    aired: string,
    synopsis: Option<string>)

  /** What the chat-completion call ends in: the first candidate's message
      content, or the text of the exception it raised. */
  datatype Reply = Success(content: string) | Failure(errText: string)
}
