/** The course-delivery email (`sendCourseEmail`): its subject and its
    three-line plain-text body. The provider call itself is a parameter of the
    server's send step. */
module Mail {
  import opened Values
  import opened Text

  datatype Message = Message(to: string, from: string, subject: string, text: string)

  /** The third line when the request carries no note. */
  const DefaultNote: string := "No extra notes provided."

  function CourseEmailLines(to: string, courseTitle: string, note: Option<string>): seq<string> {
    ["Course delivered: " + courseTitle, "Access link sent to " + to, OrElse(note, DefaultNote)]
  }

  function CourseEmail(to: string, from: string, courseTitle: string, note: Option<string>): (m: Message)
    ensures m.to == to && m.from == from
    ensures m.subject == "Gold Wealth Academy access: " + courseTitle
  {
    Message(to, from, "Gold Wealth Academy access: " + courseTitle, Join(CourseEmailLines(to, courseTitle, note), '\n'))
  }

  /** Read back line by line, the body is exactly the delivery line, the
      access line and the note (or the default note when the note is absent
      or empty), provided none of the inserted values holds a line break. */
  lemma CourseEmailHasThreeLines(to: string, from: string, courseTitle: string, note: Option<string>)
    requires '\n' !in to && '\n' !in courseTitle
    requires Truthy(note) ==> '\n' !in note.value
    ensures Split(CourseEmail(to, from, courseTitle, note).text, '\n') ==
      ["Course delivered: " + courseTitle,
       "Access link sent to " + to,
       if Truthy(note) then note.value else DefaultNote]
  {
    var lines := CourseEmailLines(to, courseTitle, note);
    assert '\n' !in "Course delivered: " + courseTitle;
    assert '\n' !in "Access link sent to " + to;
    assert '\n' !in DefaultNote;
    SplitJoin(lines, '\n');
  }
}
