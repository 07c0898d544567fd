/** `generate_synopsis`: the guard on a missing hit, the prompt built from
    the hit, and the turning of the service's reply into display text. */
module SynopsisGenerator {
  import opened Records
  import opened Text

  /** Returned, without asking the service, when there is no hit. */
  const NotFoundMessage: string := "アニメ情報が見つかりませんでした。"
  /** Put in front of the exception text when generation fails. */
  const FailurePrefix: string := "あらすじの生成に失敗しました: "
  /** The excerpt field when the hit has no synopsis. */
  const NoSynopsis: string := "なし"
  /** How many characters of the hit's synopsis go into the prompt. */
  const ExcerptLimit: nat := 200
  /** Separator of the genre field. */
  const GenreSep: string := ", "

  /** The lines of the prompt's triple-quoted f-string, up to each field.
      The string literal is indented by four spaces in the program text and
      those spaces are part of the prompt. */
  const Instruction: string := "以下の情報をもとに、このアニメの日本語のあらすじを生成してください。\n\n"
  const TitleLabel: string := "    タイトル: "
  const GenreLabel: string := "\n    ジャンル: "
  const AiredLabel: string := "\n    放送時期: "
  const ExcerptLabel: string := "\n    簡単な概要: "
  const Closing: string := "\n\n    あらすじ:\n    "

  function Min(a: nat, b: nat): nat { if a <= b then a else b }

  /** `[genre['name'] for genre in genres]`. */
  function GenreNames(genres: seq<Genre>): (names: seq<string>)
    ensures |names| == |genres|
    ensures forall i :: 0 <= i < |genres| ==> names[i] == genres[i].name
  {
    seq(|genres|, i requires 0 <= i < |genres| => genres[i].name)
  }

  /** The genre field: the genre names joined by ", "; empty when the hit
      lists no genre. */
  function GenreField(genres: seq<Genre>): (r: string)
    ensures genres == [] ==> r == ""
  {
    Join(GenreNames(genres), GenreSep)
  }

  /** The excerpt field: `synopsis[:200] if synopsis else 'なし'`. Python
      treats both a null and an empty synopsis as false, and a slice past
      the end stops at the end. */
  function Excerpt(synopsis: Option<string>): (r: string)
    ensures synopsis.Some? && synopsis.value != [] ==>
      |r| == Min(ExcerptLimit, |synopsis.value|) && r == synopsis.value[..|r|]
    ensures synopsis.None? || synopsis.value == [] ==> r == NoSynopsis
  {
    match synopsis
    case Some(s) => if s != [] then s[..Min(ExcerptLimit, |s|)] else NoSynopsis
    case None => NoSynopsis
  }

  /** The prompt sent to the generation service for `anime`: it carries the
      title, the genre field, the aired string and the excerpt verbatim, each
      at the place the fields before it leave. */
  function BuildPrompt(anime: AnimeRecord): (p: string)
    ensures Occurs(anime.title, p, TitleAt)
    ensures Occurs(GenreField(anime.genres), p, GenresAt(anime))
    ensures Occurs(anime.aired, p, AiredAt(anime))
    ensures Occurs(Excerpt(anime.synopsis), p, ExcerptAt(anime))
  {
    FieldsAt(Instruction + TitleLabel, anime.title, GenreLabel, GenreField(anime.genres),
      AiredLabel, anime.aired, ExcerptLabel, Excerpt(anime.synopsis), Closing);
    Instruction
    + TitleLabel + anime.title
    + GenreLabel + GenreField(anime.genres)
    + AiredLabel + anime.aired
    + ExcerptLabel + Excerpt(anime.synopsis)
    + Closing
  }

  /** `s[at..at + |t|] == t`. */
  predicate Occurs(t: string, s: string, at: nat)
  {
    at + |t| <= |s| && s[at..at + |t|] == t
  }

  /** Where each field of the prompt begins; the title always begins at the
      same place, the others move with the lengths of the fields before. */
  const TitleAt: nat := |Instruction| + |TitleLabel|

  function GenresAt(anime: AnimeRecord): nat
  {
    TitleAt + |anime.title| + |GenreLabel|
  }

  function AiredAt(anime: AnimeRecord): nat
  {
    GenresAt(anime) + |GenreField(anime.genres)| + |AiredLabel|
  }

  function ExcerptAt(anime: AnimeRecord): nat
  {
    AiredAt(anime) + |anime.aired| + |ExcerptLabel|
  }

  /** Around the fields placed by BuildPrompt's contract, the prompt holds
      the instruction, each field's label right before it and the closing
      label right after the excerpt, and nothing else. */
  lemma PromptLayout(anime: AnimeRecord)
    ensures Occurs(Instruction + TitleLabel, BuildPrompt(anime), 0)
    ensures Occurs(GenreLabel, BuildPrompt(anime), GenresAt(anime) - |GenreLabel|)
    ensures Occurs(AiredLabel, BuildPrompt(anime), AiredAt(anime) - |AiredLabel|)
    ensures Occurs(ExcerptLabel, BuildPrompt(anime), ExcerptAt(anime) - |ExcerptLabel|)
    ensures Occurs(Closing, BuildPrompt(anime), ExcerptAt(anime) + |Excerpt(anime.synopsis)|)
    ensures |BuildPrompt(anime)| == ExcerptAt(anime) + |Excerpt(anime.synopsis)| + |Closing|
  {
    FieldsAt(Instruction + TitleLabel, anime.title, GenreLabel, GenreField(anime.genres),
      AiredLabel, anime.aired, ExcerptLabel, Excerpt(anime.synopsis), Closing);
  }

  /** Each piece of `l0 + f1 + l1 + f2 + l2 + f3 + l3 + f4 + l4` sits where
      the lengths of the pieces before it say. */
  lemma FieldsAt(l0: string, f1: string, l1: string, f2: string, l2: string,
                 f3: string, l3: string, f4: string, l4: string)
    ensures var s := l0 + f1 + l1 + f2 + l2 + f3 + l3 + f4 + l4;
      var o1 := |l0|;
      var o2 := o1 + |f1| + |l1|;
      var o3 := o2 + |f2| + |l2|;
      var o4 := o3 + |f3| + |l3|;
      Occurs(l0, s, 0) && Occurs(f1, s, o1) && Occurs(l1, s, o1 + |f1|)
      && Occurs(f2, s, o2) && Occurs(l2, s, o2 + |f2|)
      && Occurs(f3, s, o3) && Occurs(l3, s, o3 + |f3|)
      && Occurs(f4, s, o4) && Occurs(l4, s, o4 + |f4|)
      && |s| == o4 + |f4| + |l4|
  {
  }

  /** The i-th genre name appears in the genre field at the place its rank
      gives it, followed by ", " unless it is the last, which ends the
      field. */
  lemma GenreFieldInOrder(genres: seq<Genre>, i: nat)
    requires i < |genres|
    ensures Occurs(genres[i].name, GenreField(genres), Offset(GenreNames(genres), GenreSep, i))
    ensures i + 1 < |genres| ==>
      Occurs(GenreSep, GenreField(genres), Offset(GenreNames(genres), GenreSep, i) + |genres[i].name|)
    ensures i + 1 == |genres| ==>
      Offset(GenreNames(genres), GenreSep, i) + |genres[i].name| == |GenreField(genres)|
  {
    var names := GenreNames(genres);
    assert names[i] == genres[i].name;
    JoinPartAt(names, GenreSep, i);
    if i + 1 < |genres| {
      JoinSepAfter(names, GenreSep, i);
    }
  }

  /** The display text of the service's reply: the candidate stripped of
      leading and trailing whitespace, or the failure message with the error
      text after the fixed prefix. */
  function FormatReply(reply: Reply): (r: string)
    ensures reply.Success? ==>
      exists i: nat, j: nat {:trigger StrippedAt(reply.content, i, j)} ::
        StrippedAt(reply.content, i, j) && r == reply.content[i..j]
    ensures reply.Success? && r != [] ==> !IsSpace(r[0]) && !IsSpace(r[|r| - 1])
    ensures reply.Failure? ==>
      |r| == |FailurePrefix| + |reply.errText|
      && r[..|FailurePrefix|] == FailurePrefix && r[|FailurePrefix|..] == reply.errText
  {
    match reply
    case Success(content) => Strip(content)
    case Failure(errText) => FailurePrefix + errText
  }

  /** What one call of `generate_synopsis` produces: the text it returns and
      the prompt of the request it sent, None when it sent none. */
  datatype Generation = Generation(text: string, request: Option<string>)

  /** `generate_synopsis(anime_info)` with the generation service passed in
      as `service`, the reply it gives to a prompt. */
  function GenerateSynopsis(info: Option<AnimeRecord>, service: string -> Reply): (g: Generation)
    ensures info.None? ==> g == Generation(NotFoundMessage, None)
    ensures info.Some? ==>
      g.request == Some(BuildPrompt(info.value))
      && g.text == FormatReply(service(g.request.value))
  {
    match info
    case None => Generation(NotFoundMessage, None)
    case Some(anime) =>
      var prompt := BuildPrompt(anime);
      Generation(FormatReply(service(prompt)), Some(prompt))
  }
}
