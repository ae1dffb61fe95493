/** The marketplace's records and the fixture lists the pages display
    (src/lib/mockData.ts). */
module Marketplace {
  import opened Base

  /** The five values of the `mode` union. */
  datatype Mode = Online | Hybrid | Pilani | Goa | Hyderabad

  /** The string the union member is spelled as. */
  function ModeName(m: Mode): string
  {
    match m
    case Online => "Online"
    case Hybrid => "Hybrid"
    case Pilani => "Pilani"
    case Goa => "Goa"
    case Hyderabad => "Hyderabad"
  }

  /** Distinct modes are spelled differently. */
  lemma ModeNameInjective(m: Mode, n: Mode)
    ensures ModeName(m) == ModeName(n) ==> m == n
  {
  }

  /** The three values of an application's `status` union. */
  datatype Status = Pending | Shortlisted | Rejected

  function StatusName(s: Status): string
  {
    match s
    case Pending => "Pending"
    case Shortlisted => "Shortlisted"
    case Rejected => "Rejected"
  }

  /** The badge styles an application's status is shown with. */
  datatype BadgeVariant = Default | Destructive | Secondary

  /** The status badge both application tables use: "Shortlisted" is the
      default style, "Rejected" the destructive one, any other text secondary. */
  function BadgeOf(status: string): (v: BadgeVariant)
    ensures v == Default <==> status == "Shortlisted"
    ensures v == Destructive <==> status == "Rejected"
    ensures v == Secondary <==> status != "Shortlisted" && status != "Rejected"
  {
    if status == "Shortlisted" then Default
    else if status == "Rejected" then Destructive
    else Secondary
  }

  /** Each of the three statuses gets a badge of its own. */
  lemma StatusBadgesDistinct(s: Status, t: Status)
    ensures BadgeOf(StatusName(s)) == BadgeOf(StatusName(t)) ==> s == t
    ensures BadgeOf(StatusName(Pending)) == Secondary
  {
  }

  datatype Startup = Startup(
    id: string,
    name: string,
    website: string,
    location: string,
    domain: string,
    founded: int,
    summary: string)

  datatype Internship = Internship(
    id: string,
    startupId: string,
    startupName: string,
    title: string,
    description: string,
    openings: int,
    duration: string,
    mode: Mode,
    deadline: string,
    skills: seq<string>,
    stipend: Option<string>,
    contactEmail: string,
    certificate: bool,
    listingDate: string,
    customQuestions: seq<string>)

  datatype Answer = Answer(question: string, answer: string)

  datatype Application = Application(
    id: string,
    internshipId: string,
    studentId: string,
    studentName: string,
    studentEmail: string,
    studentWhatsapp: Option<string>,
    resume: Option<string>,
    linkedin: Option<string>,
    pitch: string,
    answers: seq<Answer>,
    status: Status,
    appliedDate: string)

  const Startup1 := Startup("s1", "TechNova", "https://technova.example.com", "Bangalore, India", "AI & ML", 2019,
      "TechNova is leveraging artificial intelligence to revolutionize healthcare diagnostics, making medical diagnoses more accessible and accurate for everyone.")

  const Startup2 := Startup("s2", "GreenScape", "https://greenscape.example.com", "Mumbai, India", "CleanTech", 2020,
      "GreenScape is developing sustainable solutions for urban farming, enabling communities to grow fresh produce in limited spaces.")

  const Startup3 := Startup("s3", "EduSpark", "https://eduspark.example.com", "Delhi, India", "EdTech", 2018,
      "EduSpark is transforming education through personalized learning experiences powered by data analytics and adaptive learning technologies.")

  const Startup4 := Startup("s4", "FinWise", "https://finwise.example.com", "Pune, India", "FinTech", 2021,
      "FinWise is democratizing financial planning with accessible tools that help individuals make informed decisions about their financial future.")

  const Startup5 := Startup("s5", "HealthPulse", "https://healthpulse.example.com", "Hyderabad, India", "HealthTech", 2020,
      "HealthPulse is building a platform that connects patients with healthcare providers, streamlining the process of finding and booking medical appointments.")

  const Startup6 := Startup("s6", "LogiTech", "https://logitech.example.com", "Chennai, India", "Logistics", 2019,
      "LogiTech is optimizing supply chains through real-time tracking and analytics, reducing costs and environmental impact in the logistics industry.")

  const MockStartups: seq<Startup> := [Startup1, Startup2, Startup3, Startup4, Startup5, Startup6]

  const Internship1 := Internship("i1", "s1", "TechNova", "Machine Learning Intern",
      "Join our AI team to develop cutting-edge algorithms for medical image analysis.",
      2, "3 months", Online, "2025-05-30", ["Python", "TensorFlow", "Computer Vision"],
      Some("₹20,000 per month"), "careers@technova.example.com", true, "2025-04-10",
      ["What projects have you worked on that involved machine learning?",
       "Are you familiar with medical imaging datasets?"])

  const Internship2 := Internship("i2", "s2", "GreenScape", "IoT Developer Intern",
      "Work on IoT solutions for monitoring plant health and automating urban farming systems.",
      3, "6 months", Hybrid, "2025-05-15", ["Arduino", "Raspberry Pi", "Sensors", "C++"],
      Some("₹15,000 per month"), "tech@greenscape.example.com", true, "2025-04-05", [])

  const Internship3 := Internship("i3", "s3", "EduSpark", "Frontend Developer Intern",
      "Develop intuitive user interfaces for our educational platform using modern web technologies.",
      2, "4 months", Pilani, "2025-06-01", ["React", "TypeScript", "UI/UX Design"],
      Some("₹18,000 per month"), "developers@eduspark.example.com", true, "2025-04-12", [])

  const Internship4 := Internship("i4", "s4", "FinWise", "Data Analyst Intern",
      "Analyze financial datasets and create insightful visualizations to help users understand complex financial concepts.",
      1, "3 months", Goa, "2025-05-25", ["SQL", "Python", "Data Visualization", "Financial Knowledge"],
      Some("₹16,000 per month"), "data@finwise.example.com", false, "2025-04-08", [])

  const Internship5 := Internship("i5", "s5", "HealthPulse", "Backend Developer Intern",
      "Build robust APIs and database structures for our healthcare scheduling platform.",
      2, "5 months", Hyderabad, "2025-06-15", ["Node.js", "MongoDB", "Express", "API Design"],
      Some("₹22,000 per month"), "engineering@healthpulse.example.com", true, "2025-04-15", [])

  const Internship6 := Internship("i6", "s6", "LogiTech", "Mobile App Developer Intern",
      "Develop features for our logistics tracking app used by thousands of delivery personnel.",
      3, "4 months", Online, "2025-05-20", ["Flutter", "Dart", "Firebase", "Maps API"],
      Some("₹19,000 per month"), "mobile@logitech.example.com", true, "2025-04-03", [])

  const MockInternships: seq<Internship> := [Internship1, Internship2, Internship3, Internship4, Internship5, Internship6]

  const MockApplications: seq<Application> := []
}
